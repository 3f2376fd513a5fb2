/** What the managed block configures, as a resolver reads it. */
module ConfiguredResolver {
  import opened Wrappers
  import opened ResolvConf
  import opened ResolverReader

  /** No server and no domain has a line break. */
  predicate Readable(s: Settings) {
    && (forall server | server in s.nameservers :: '\n' !in server)
    && (forall domain | domain in s.searchDomains :: '\n' !in domain)
  }

  function ServerLines(nameservers: seq<string>): seq<string> {
    seq(|nameservers|, i requires 0 <= i < |nameservers| => "nameserver " + nameservers[i])
  }

  lemma {:induction false} LinesOfServers(nameservers: seq<string>, rest: string)
    requires forall server | server in nameservers :: '\n' !in server
    ensures Lines(NameserverLines(nameservers) + rest) == ServerLines(nameservers) + Lines(rest)
    decreases |nameservers|
  {
    if nameservers == [] {
      assert NameserverLines(nameservers) + rest == rest;
    } else {
      var front, last := nameservers[..|nameservers| - 1], nameservers[|nameservers| - 1];
      assert NameserverLines(nameservers) + rest == NameserverLines(front) + ("nameserver " + last + "\n" + rest);
      LinesOfServers(front, "nameserver " + last + "\n" + rest);
      FirstLine("nameserver " + last, rest);
      assert ServerLines(nameservers) == ServerLines(front) + ["nameserver " + last];
    }
  }

  lemma {:induction false} JoinHasNoBreak(parts: seq<string>)
    requires forall part | part in parts :: '\n' !in part
    ensures '\n' !in Join(parts)
  {
    if |parts| > 1 {
      assert forall part | part in parts[1..] :: part in parts;
      JoinHasNoBreak(parts[1..]);
    }
  }

  /** The names in the domains, in order. */
  function DomainNames(domains: seq<string>): seq<string> {
    if domains == [] then [] else Names(domains[0], "") + DomainNames(domains[1..])
  }

  lemma {:induction false} NamesOfJoin(parts: seq<string>)
    ensures Names(Join(parts), "") == DomainNames(parts)
  {
    if |parts| == 1 {
      assert parts[1..] == [];
    } else if |parts| > 1 {
      NamesOfJoin(parts[1..]);
      NamesOfJoined(parts[0], Join(parts[1..]), "");
    }
  }

  /** Domains that are names are found as they are. */
  lemma {:induction false} DomainsAreNames(domains: seq<string>)
    requires forall domain | domain in domains :: domain != "" && ' ' !in domain
    ensures DomainNames(domains) == domains
  {
    if domains != [] {
      assert domains[0] in domains && forall domain | domain in domains[1..] :: domain in domains;
      OneName(domains[0], "");
      assert "" + domains[0] == domains[0] && [domains[0]] + domains[1..] == domains;
      DomainsAreNames(domains[1..]);
    }
  }

  function SearchLine(s: Settings): seq<string> {
    if s.searchDomains == [] then [] else ["search " + Join(s.searchDomains)]
  }

  lemma LinesOfSearch(s: Settings, rest: string)
    requires Readable(s)
    ensures Lines(SearchText(s) + rest) == SearchLine(s) + Lines(rest)
  {
    hide Join, Lines;
    if |s.searchDomains| > 0 {
      JoinHasNoBreak(s.searchDomains);
      FirstLine("search " + Join(s.searchDomains), rest);
    } else {
      assert "" + rest == rest;
    }
  }

  function SearchText(s: Settings): string {
    if |s.searchDomains| > 0 then "search " + Join(s.searchDomains) + "\n" else ""
  }

  lemma BlockInPieces(s: Settings, rest: string)
    ensures Block(s) + rest
         == HEADER + "\n" + (NameserverLines(s.nameservers) + (SearchText(s) + (FOOTER + "\n" + rest)))
  {
    hide NameserverLines, SearchText;
    Pieces(HEADER + "\n", NameserverLines(s.nameservers), SearchText(s), FOOTER + "\n", rest);
    BodyInPieces(s);
  }

  lemma BodyInPieces(s: Settings)
    ensures Body(s) == NameserverLines(s.nameservers) + SearchText(s)
  {
  }

  lemma Pieces(a: string, b: string, c: string, d: string, e: string)
    ensures a + (b + c) + d + e == a + (b + (c + (d + e)))
  {
  }

  const BEGIN := "# BEGIN coder-desktop managed block"
  const END := "# END coder-desktop managed block"

  lemma HeaderSpelled()
    ensures HEADER == BEGIN
  {
  }

  lemma FooterSpelled()
    ensures FOOTER == END
  {
  }

  lemma BeginIsALine()
    ensures '\n' !in BEGIN
  {
  }

  lemma EndIsALine()
    ensures '\n' !in END
  {
  }

  /** The configured file, line by line. */
  lemma LinesOfBlock(s: Settings, rest: string)
    requires Readable(s)
    ensures Lines(Block(s) + rest)
         == [BEGIN] + ServerLines(s.nameservers) + SearchLine(s)
            + [END] + Lines(rest)
  {
    hide NameserverLines, SearchText, Join, Lines, Block, HEADER, FOOTER, BEGIN, END;
    var end := FOOTER + "\n" + rest;
    var servers, search := NameserverLines(s.nameservers), SearchText(s);
    BlockInPieces(s, rest);
    HeaderSpelled();
    FooterSpelled();
    BeginIsALine();
    EndIsALine();
    FirstLine(HEADER, servers + (search + end));
    LinesOfServers(s.nameservers, search + end);
    LinesOfSearch(s, end);
    FirstLine(FOOTER, rest);
  }

  lemma {:induction false} ServersOfLines(nameservers: seq<string>)
    ensures Servers(ServerLines(nameservers)) == nameservers
    ensures SearchLists(ServerLines(nameservers)) == []
  {
    if nameservers != [] {
      var line := "nameserver " + nameservers[0];
      assert ServerLines(nameservers)[1..] == ServerLines(nameservers[1..]);
      assert line[11..] == nameservers[0] && line[0] == 'n';
      assert [nameservers[0]] + nameservers[1..] == nameservers;
      ServersOfLines(nameservers[1..]);
    }
  }

  lemma NoServerLine(line: string)
    requires line == "" || line[0] != 'n'
    ensures Servers([line]) == []
  {
  }

  lemma NoSearchLine(line: string)
    requires line == "" || line[0] != 's'
    ensures SearchLists([line]) == []
  {
  }

  /** The names in the domains as one search list, if there are any domains. */
  function DomainLists(s: Settings): seq<seq<string>> {
    if s.searchDomains == [] then [] else [DomainNames(s.searchDomains)]
  }

  lemma ReadSearchLine(s: Settings)
    ensures Servers(SearchLine(s)) == []
    ensures SearchLists(SearchLine(s)) == DomainLists(s)
  {
    hide Join, Names;
    if s.searchDomains != [] {
      var line := "search " + Join(s.searchDomains);
      NoServerLine(line);
      assert line[7..] == Join(s.searchDomains);
      NamesOfJoin(s.searchDomains);
      assert [line][1..] == [] && SearchLists([]) == [];
    }
  }

  lemma ServersOfFive(a: seq<string>, b: seq<string>, c: seq<string>, d: seq<string>, e: seq<string>)
    ensures Servers(a + b + c + d + e) == Servers(a) + Servers(b) + Servers(c) + Servers(d) + Servers(e)
    ensures SearchLists(a + b + c + d + e)
         == SearchLists(a) + SearchLists(b) + SearchLists(c) + SearchLists(d) + SearchLists(e)
  {
    hide Servers, SearchLists;
    ServersConcat(a, b);
    ServersConcat(a + b, c);
    ServersConcat(a + b + c, d);
    ServersConcat(a + b + c + d, e);
    SearchListsConcat(a, b);
    SearchListsConcat(a + b, c);
    SearchListsConcat(a + b + c, d);
    SearchListsConcat(a + b + c + d, e);
  }

  lemma MarkersSayNothing()
    ensures Servers([BEGIN]) == Servers([END]) == []
    ensures SearchLists([BEGIN]) == SearchLists([END]) == []
  {
    assert BEGIN[0] == END[0] == '#';
    NoServerLine(BEGIN);
    NoServerLine(END);
    NoSearchLine(BEGIN);
    NoSearchLine(END);
  }

  lemma ReadBlock(s: Settings, rest: string)
    requires Readable(s)
    ensures Servers(Lines(Block(s) + rest)) == s.nameservers + Servers(Lines(rest))
    ensures SearchLists(Lines(Block(s) + rest)) == DomainLists(s) + SearchLists(Lines(rest))
  {
    hide Servers, SearchLists, Lines, ServerLines, SearchLine, Block, BEGIN, END;
    LinesOfBlock(s, rest);
    ServersOfLines(s.nameservers);
    ReadSearchLine(s);
    MarkersSayNothing();
    ServersOfFive([BEGIN], ServerLines(s.nameservers), SearchLine(s), [END], Lines(rest));
  }

  lemma ConfiguredContents(st: State, s: Settings)
    ensures Contents(Configure(st, s).files) == Block(s) + Contents(st.files)
  {
    hide Block;
  }

  /** After a configure a resolver asks the given servers first, and then those it asked before; it finds the names
      in the given domains on the first search line. */
  lemma ConfiguredServersAreRead(st: State, s: Settings)
    requires Readable(s)
    ensures var before, after := Contents(st.files), Contents(Configure(st, s).files);
      && Servers(Lines(after)) == s.nameservers + Servers(Lines(before))
      && SearchLists(Lines(after)) == DomainLists(s) + SearchLists(Lines(before))
    ensures (forall domain | domain in s.searchDomains :: domain != "" && ' ' !in domain)
            ==> DomainNames(s.searchDomains) == s.searchDomains
  {
    if forall domain | domain in s.searchDomains :: domain != "" && ' ' !in domain {
      DomainsAreNames(s.searchDomains);
    }
    hide Block, Configure, Contents, Servers, SearchLists, Lines;
    ConfiguredContents(st, s);
    ReadBlock(s, Contents(st.files));
  }

  // ---- whole runs ----

  /** The servers of the configures that have not been torn down, newest first. */
  function PendingServers(pending: seq<Settings>): seq<string> {
    if pending == [] then []
    else pending[|pending| - 1].nameservers + PendingServers(pending[..|pending| - 1])
  }

  lemma {:induction false} ReadStack(pending: seq<Settings>, original: string)
    requires forall s | s in pending :: Readable(s)
    ensures Servers(Lines(Stacked(pending, original))) == PendingServers(pending) + Servers(Lines(original))
  {
    hide Block, Servers, Lines, Readable;
    if pending != [] {
      var last, front := pending[|pending| - 1], pending[..|pending| - 1];
      assert last in pending;
      ReadBlock(last, Stacked(front, original));
      ReadStack(front, original);
    }
  }

  lemma {:induction false} PendingWereConfigured(ops: seq<Op>, s: Settings)
    requires s in Pending(ops)
    ensures Configuring(s) in ops
  {
    var front := ops[..|ops| - 1];
    if s in Pending(front) {
      PendingWereConfigured(front, s);
    } else {
      assert ops[|ops| - 1] == Configuring(s);
    }
  }

  /** After any nested run whose cuts were clean a resolver asks the servers of the configures still pending, newest
      first, and then those of the original file. */
  lemma RunServersAreRead(st: State, ops: seq<Op>)
    requires st.backupPath == "" && Nested(ops) && CutsAreClean(st, ops)
    requires forall op | op in ops && op.Configuring? :: Readable(op.settings)
    ensures Servers(Lines(Contents(Run(st, ops).files)))
         == PendingServers(Pending(ops)) + Servers(Lines(Contents(st.files)))
  {
    hide Servers, Lines, Readable, Run, Nested, Pending, CutsAreClean;
    RunIsTheStackIff(st, ops);
    forall s | s in Pending(ops) ensures Readable(s) {
      PendingWereConfigured(ops, s);
    }
    ReadStack(Pending(ops), Contents(st.files));
  }
}
