/** The managed block that the direct-file DNS backend puts in front of /etc/resolv.conf. */
module ResolvConf {
  import opened Wrappers

  const CONF_PATH := "/etc/resolv.conf"
  const BACKUP_PATH := "/etc/resolv.conf.coder-backup"
  const BLOCK_NAME := "coder-desktop managed block"
  const HEADER := "# BEGIN " + BLOCK_NAME
  const FOOTER := "# END " + BLOCK_NAME

  // ---- first occurrence ----

  predicate OccursAt(text: string, pattern: string, i: nat) {
    i + |pattern| <= |text| && text[i..i + |pattern|] == pattern
  }

  /** The first index at or after `i` at which `pattern` occurs, or -1. */
  function IndexFrom(text: string, pattern: string, i: nat): (at: int)
    requires i <= |text|
    ensures at == -1 || (i <= at && OccursAt(text, pattern, at))
    ensures forall j: nat | i <= j && (at == -1 || j < at) :: !OccursAt(text, pattern, j)
    decreases |text| - i
  {
    if OccursAt(text, pattern, i) then i
    else if i == |text| then -1
    else IndexFrom(text, pattern, i + 1)
  }

  function Index(text: string, pattern: string): (at: int)
    ensures -1 <= at && (at >= 0 ==> at + |pattern| <= |text|)
  {
    IndexFrom(text, pattern, 0)
  }

  // ---- the text ----

  datatype Settings = Settings(nameservers: seq<string>, searchDomains: seq<string>)

  function NameserverLines(nameservers: seq<string>): string {
    if nameservers == [] then ""
    else NameserverLines(nameservers[..|nameservers| - 1]) + "nameserver " + nameservers[|nameservers| - 1] + "\n"
  }

  function Join(parts: seq<string>): string {
    if parts == [] then "" else if |parts| == 1 then parts[0] else parts[0] + " " + Join(parts[1..])
  }

  function Body(s: Settings): string {
    NameserverLines(s.nameservers) + if |s.searchDomains| > 0 then "search " + Join(s.searchDomains) + "\n" else ""
  }

  /** Everything in the block before its footer. */
  function Opening(s: Settings): string {
    HEADER + "\n" + Body(s)
  }

  function Block(s: Settings): string {
    Opening(s) + FOOTER + "\n"
  }

  /** The text without the first header, the first footer and what lies between them. */
  function Cut(text: string): string {
    var start := Index(text, HEADER);
    var end := Index(text, FOOTER);
    if start < 0 || end < 0 then text
    else
      var past := end + |FOOTER|;
      var past' := if past < |text| && text[past] == '\n' then past + 1 else past;
      text[..start] + text[past'..]
  }

  // ---- when a cut removes exactly the block ----

  /** The block's own footer is the first one in it. */
  ghost predicate FooterComesLast(s: Settings) {
    forall i: nat | i < |Opening(s)| :: !OccursAt(Block(s), FOOTER, i)
  }

  lemma BlockParts(s: Settings, rest: string)
    ensures var text := Block(s) + rest;
      && OccursAt(text, HEADER, 0)
      && OccursAt(text, FOOTER, |Opening(s)|)
      && text[|Opening(s)| + |FOOTER|] == '\n'
      && text[|Opening(s)| + |FOOTER| + 1..] == rest
  {
    var text := Block(s) + rest;
    HeaderComesFirst(s, rest);
    assert text == Opening(s) + FOOTER + ("\n" + rest);
  }

  lemma HeaderComesFirst(s: Settings, rest: string)
    ensures OccursAt(Block(s) + rest, HEADER, 0)
  {
    hide Body;
    FirstOfMany(HEADER, "\n", Body(s), FOOTER, rest);
  }

  lemma FirstOfMany(a: string, b: string, c: string, d: string, e: string)
    ensures OccursAt(a + b + c + d + "\n" + e, a, 0)
  {
    hide OccursAt;
    var tail := b + c + d + "\n" + e;
    assert a + b + c + d + "\n" + e == a + tail;
    AtTheFront(a, tail);
  }

  lemma AtTheFront(a: string, b: string)
    ensures OccursAt(a + b, a, 0)
  {
  }

  lemma FooterInBlock(s: Settings, rest: string, i: nat)
    requires i <= |Opening(s)|
    ensures OccursAt(Block(s) + rest, FOOTER, i) <==> OccursAt(Block(s), FOOTER, i)
  {
    assert i + |FOOTER| <= |Block(s)|;
    assert (Block(s) + rest)[i..i + |FOOTER|] == Block(s)[i..i + |FOOTER|];
  }

  /** Cutting undoes prepending, whatever follows, exactly for settings that do not smuggle in a footer. */
  lemma CutUndoesPrepend(s: Settings, rest: string)
    ensures Cut(Block(s) + rest) == rest <==> FooterComesLast(s)
  {
    var text := Block(s) + rest;
    BlockParts(s, rest);
    var end := Index(text, FOOTER);
    assert Index(text, HEADER) == 0;
    assert 0 <= end <= |Opening(s)|;
    FooterInBlock(s, rest, end);
    if end < |Opening(s)| {
      assert |Cut(text)| > |rest|;
    } else {
      forall i: nat | i < |Opening(s)| ensures !OccursAt(Block(s), FOOTER, i) {
        FooterInBlock(s, rest, i);
      }
      assert text[..0] == "";
    }
  }

  predicate Plain(text: string) {
    '#' !in text
  }

  /** No server and no search domain contains '#'. */
  predicate PlainSettings(s: Settings) {
    && (forall t | t in s.nameservers :: Plain(t))
    && (forall t | t in s.searchDomains :: Plain(t))
  }

  lemma {:induction false} PlainNameserverLines(nameservers: seq<string>)
    requires forall t | t in nameservers :: Plain(t)
    ensures Plain(NameserverLines(nameservers))
  {
    if nameservers != [] {
      PlainNameserverLines(nameservers[..|nameservers| - 1]);
      assert Plain("nameserver ") && Plain("\n");
      assert Plain(nameservers[|nameservers| - 1]);
    }
  }

  lemma {:induction false} PlainJoin(parts: seq<string>)
    requires forall t | t in parts :: Plain(t)
    ensures Plain(Join(parts))
  {
    if |parts| >= 1 {
      assert Plain(parts[0]) && Plain(" ");
      PlainJoin(parts[1..]);
    }
  }

  lemma PlainBody(s: Settings)
    requires PlainSettings(s)
    ensures Plain(Body(s))
  {
    PlainNameserverLines(s.nameservers);
    PlainJoin(s.searchDomains);
    assert Plain("search ") && Plain("\n");
  }

  lemma PlainName()
    ensures Plain(BLOCK_NAME)
  {
  }

  lemma Markers()
    ensures |HEADER| > 2 && HEADER[0] == '#' && HEADER[2] == 'B' && Plain(HEADER[1..])
    ensures FOOTER[0] == '#' && FOOTER[2] == 'E' && |FOOTER| > 2
  {
    PlainName();
    assert HEADER[1..] == " BEGIN " + BLOCK_NAME;
    assert Plain(" BEGIN ");
  }

  lemma Mismatch(text: string, pattern: string, i: nat, j: nat)
    requires j < |pattern| && i + j < |text| && text[i + j] != pattern[j]
    ensures !OccursAt(text, pattern, i)
  {
    assert i + |pattern| <= |text| ==> text[i..i + |pattern|][j] == text[i + j];
  }

  lemma PlainConcat(a: string, b: string)
    requires Plain(a) && Plain(b)
    ensures Plain(a + b)
  {
  }

  lemma PlainAt(text: string, i: nat)
    requires Plain(text) && i < |text|
    ensures text[i] != '#'
  {
    assert text[i] in text;
  }

  lemma PlainOpening(s: Settings)
    requires PlainSettings(s)
    ensures 2 < |Opening(s)| && Opening(s)[2] == 'B' && Plain(Opening(s)[1..])
  {
    Markers();
    PlainBody(s);
    assert Plain("\n");
    hide Plain, Body;
    PlainConcat("\n", Body(s));
    PlainConcat(HEADER[1..], "\n" + Body(s));
    TailOfJoin(HEADER, "\n", Body(s));
  }

  lemma TailOfJoin(a: string, b: string, c: string)
    requires |a| > 2
    ensures |a + b + c| > 2 && (a + b + c)[2] == a[2] && (a + b + c)[1..] == a[1..] + (b + c)
  {
  }

  lemma OneHashInOpening(s: Settings)
    requires PlainSettings(s)
    ensures 2 < |Opening(s)| < |Block(s)| && Block(s)[2] == 'B'
    ensures forall i | 0 < i < |Opening(s)| :: Block(s)[i] != '#'
  {
    PlainOpening(s);
    var opening := Opening(s);
    forall i | 0 < i < |opening| ensures Block(s)[i] != '#' {
      hide Body, Plain;
      PlainAt(opening[1..], i - 1);
      assert Block(s)[i] == opening[i];
    }
  }

  /** Settings without '#' always meet the condition. */
  lemma PlainSettingsSuffice(s: Settings)
    requires PlainSettings(s)
    ensures FooterComesLast(s)
  {
    Markers();
    OneHashInOpening(s);
    forall i: nat | i < |Opening(s)| ensures !OccursAt(Block(s), FOOTER, i) {
      Mismatch(Block(s), FOOTER, i, if i == 0 then 2 else 0);
    }
  }

  lemma DomainOpening(servers: seq<string>)
    ensures Opening(Settings(servers, [FOOTER]))
         == HEADER + "\n" + (NameserverLines(servers) + "search ") + FOOTER + "\n"
  {
    hide NameserverLines;
    assert Join([FOOTER]) == FOOTER;
    FourParts(HEADER + "\n", NameserverLines(servers), "search ", FOOTER, "\n");
  }

  /** A search domain that is a footer is found before the block's own footer. */
  lemma FooterAsDomain(servers: seq<string>)
    ensures !FooterComesLast(Settings(servers, [FOOTER]))
  {
    var s := Settings(servers, [FOOTER]);
    DomainOpening(servers);
    hide Opening, NameserverLines;
    var before := HEADER + "\n" + (NameserverLines(servers) + "search ");
    OccursBetween(before, FOOTER, "\n" + FOOTER + "\n");
    TwiceOver(before, FOOTER);
    assert OccursAt(Block(s), FOOTER, |before|) && |before| < |Opening(s)|;
  }

  lemma TwiceOver(a: string, f: string)
    ensures (a + f + "\n") + f + "\n" == a + f + ("\n" + f + "\n")
  {
  }

  lemma FourParts(a: string, b: string, c: string, d: string, e: string)
    ensures a + (b + (c + d + e)) == a + (b + c) + d + e
  {
  }

  lemma OccursBetween(before: string, pattern: string, after: string)
    ensures OccursAt(before + pattern + after, pattern, |before|)
  {
  }

  // ---- the manager ----

  /** The file system and the one field of a manager. */
  datatype State = State(files: map<string, string>, backupPath: string)

  function Contents(files: map<string, string>): string {
    if CONF_PATH in files then files[CONF_PATH] else ""
  }

  /** A configure whose file operations succeed. */
  function Configure(st: State, s: Settings): State {
    var existing := Contents(st.files);
    var st' := if |existing| > 0 then State(st.files[BACKUP_PATH := existing], BACKUP_PATH) else st;
    st'.(files := st'.files[CONF_PATH := Block(s) + existing])
  }

  /** A teardown; reading a backup that is gone is an error and changes nothing. */
  function Teardown(st: State): (State, Outcome) {
    if st.backupPath == "" then
      if CONF_PATH !in st.files then (st, Pass)
      else (st.(files := st.files[CONF_PATH := Cut(st.files[CONF_PATH])]), Pass)
    else if st.backupPath !in st.files then (st, Fail)
    else (State(st.files[CONF_PATH := st.files[st.backupPath]] - {st.backupPath}, ""), Pass)
  }

  // ---- failing file operations ----

  /** Which file operation of a call fails, and what a failed write leaves in its file. */
  datatype Trouble = Smooth | ReadFails | BackupFails(left: string) | WriteFails(left: string) | RemoveFails

  function ConfigureWith(st: State, s: Settings, trouble: Trouble): (State, Outcome) {
    var existing := Contents(st.files);
    if trouble.ReadFails? then (st, Fail)
    else if |existing| > 0 && trouble.BackupFails? then
      (st.(files := st.files[BACKUP_PATH := trouble.left]), Fail)
    else
      var backedUp := if |existing| > 0 then State(st.files[BACKUP_PATH := existing], BACKUP_PATH) else st;
      if trouble.WriteFails? then (backedUp.(files := backedUp.files[CONF_PATH := trouble.left]), Fail)
      else (backedUp.(files := backedUp.files[CONF_PATH := Block(s) + existing]), Pass)
  }

  predicate HasMarkers(text: string) {
    Index(text, HEADER) >= 0 && Index(text, FOOTER) >= 0
  }

  /** Without a backup an unreadable file is nothing to clean up; a backup that cannot be removed is ignored. */
  function TeardownWith(st: State, trouble: Trouble): (State, Outcome) {
    if st.backupPath == "" then
      if trouble.ReadFails? || CONF_PATH !in st.files || !HasMarkers(st.files[CONF_PATH]) then (st, Pass)
      else if trouble.WriteFails? then (st.(files := st.files[CONF_PATH := trouble.left]), Fail)
      else (st.(files := st.files[CONF_PATH := Cut(st.files[CONF_PATH])]), Pass)
    else if trouble.ReadFails? || st.backupPath !in st.files then (st, Fail)
    else if trouble.WriteFails? then (st.(files := st.files[CONF_PATH := trouble.left]), Fail)
    else
      var restored := st.files[CONF_PATH := st.files[st.backupPath]];
      (State(if trouble.RemoveFails? then restored else restored - {st.backupPath}, ""), Pass)
  }

  /** When nothing fails these are the configure and the teardown. */
  lemma SmoothCalls(st: State, s: Settings)
    ensures ConfigureWith(st, s, Smooth) == (Configure(st, s), Pass)
    ensures TeardownWith(st, Smooth) == Teardown(st)
  {
    if st.backupPath == "" && CONF_PATH in st.files && !HasMarkers(st.files[CONF_PATH]) {
      assert st.files == st.files[CONF_PATH := Cut(st.files[CONF_PATH])];
    }
  }

  /** What a manager that has failed to write may remember: no backup, or the one backup file. */
  predicate Remembers(st: State) {
    st.backupPath == "" || st.backupPath == BACKUP_PATH
  }

  /** A write of the new text fails and leaves anything in the file.  The next teardown that goes through
      brings back what was there iff there was something, so that it was backed up; or, with nothing there,
      what is left is cut down to nothing, or an earlier backup that is still remembered is empty too. */
  lemma FailedWriteIsUndoneIff(st: State, s: Settings, left: string)
    requires Remembers(st)
    ensures
      var broken := ConfigureWith(st, s, WriteFails(left)).0;
      Contents(Teardown(broken).0.files) == Contents(st.files)
      <==> || Contents(st.files) != ""
           || (if st.backupPath == "" then Cut(left) == ""
               else if BACKUP_PATH in st.files then st.files[BACKUP_PATH] == "" else left == "")
  {
    PathsDiffer();
  }

  /** A restore may fail as well, and leave anything: the backup is kept, and the next one that goes through
      makes it good. */
  lemma FailedRestoreIsRetried(st: State, again: string)
    requires st.backupPath == BACKUP_PATH && BACKUP_PATH in st.files
    ensures var (t, outcome) := TeardownWith(st, WriteFails(again));
      outcome == Fail && Teardown(t) == Teardown(st)
  {
    PathsDiffer();
    var t := TeardownWith(st, WriteFails(again)).0;
    assert t.files[CONF_PATH := t.files[BACKUP_PATH]] == st.files[CONF_PATH := st.files[BACKUP_PATH]];
  }

  /** A configure that cannot read changes nothing; one that cannot back up leaves resolv.conf and the
      remembered path alone, but overwrites the backup file. */
  lemma FailuresBeforeTheWrite(st: State, s: Settings, left: string)
    ensures ConfigureWith(st, s, ReadFails) == (st, Fail)
    ensures Contents(st.files) != "" ==>
      var (t, outcome) := ConfigureWith(st, s, BackupFails(left));
      && outcome == Fail && t == st.(files := st.files[BACKUP_PATH := left])
      && Contents(t.files) == Contents(st.files)
  {
    PathsDiffer();
  }

  /** So a failed backup is without consequence for the next teardown iff no earlier backup is remembered,
      or the overwritten file is as that teardown would have left resolv.conf anyway. */
  lemma FailedBackupIsHarmlessIff(st: State, s: Settings, left: string)
    requires Remembers(st) && Contents(st.files) != ""
    ensures
      var t := ConfigureWith(st, s, BackupFails(left)).0;
      Contents(Teardown(t).0.files) == Contents(Teardown(st).0.files)
      <==> || st.backupPath == ""
           || left == (if BACKUP_PATH in st.files then st.files[BACKUP_PATH] else Contents(st.files))
  {
    PathsDiffer();
  }

  /** A configure, another one whose backup fails, and a teardown: the original text is lost, and what the
      failed write left is in its place. */
  lemma FailedBackupLosesTheOriginal(st: State, s: Settings, next: Settings, left: string)
    requires Contents(st.files) != ""
    ensures
      var broken := ConfigureWith(Configure(st, s), next, BackupFails(left)).0;
      Contents(Teardown(broken).0.files) == left
  {
    PathsDiffer();
  }

  // ---- runs of one manager ----

  datatype Op = Configuring(settings: Settings) | TearingDown

  function Do(st: State, op: Op): State {
    match op
    case Configuring(s) => Configure(st, s)
    case TearingDown => Teardown(st).0
  }

  function Run(st: State, ops: seq<Op>): State {
    if ops == [] then st else Do(Run(st, ops[..|ops| - 1]), ops[|ops| - 1])
  }

  /** The configures not yet torn down, newest last; a teardown undoes the newest. */
  function Pending(ops: seq<Op>): seq<Settings> {
    if ops == [] then []
    else
      var before := Pending(ops[..|ops| - 1]);
      match ops[|ops| - 1]
      case Configuring(s) => before + [s]
      case TearingDown => if before == [] then [] else before[..|before| - 1]
  }

  /** No teardown comes without a configure to undo. */
  predicate Nested(ops: seq<Op>) {
    ops == [] ||
    (Nested(ops[..|ops| - 1]) && (ops[|ops| - 1].TearingDown? ==> Pending(ops[..|ops| - 1]) != []))
  }

  /** Every teardown that has no backup, and so has to cut, finds a block whose own footer is the first. */
  ghost predicate CutsAreClean(st: State, ops: seq<Op>) {
    ops != [] ==>
      var front, pending := ops[..|ops| - 1], Pending(ops[..|ops| - 1]);
      && CutsAreClean(st, front)
      && (ops[|ops| - 1].TearingDown? && Run(st, front).backupPath == "" && pending != [] ==>
            FooterComesLast(pending[|pending| - 1]))
  }

  /** The blocks of these settings, the last one first, and then `original`. */
  function Stacked(pending: seq<Settings>, original: string): string {
    if pending == [] then original
    else Block(pending[|pending| - 1]) + Stacked(pending[..|pending| - 1], original)
  }

  /** The file is a stack of blocks on the original, and a backup, if there is one, is what lies
      under the top block. */
  ghost predicate StackFits(st: State, pending: seq<Settings>, original: string) {
    && Contents(st.files) == Stacked(pending, original)
    && (pending != [] ==> CONF_PATH in st.files)
    && (st.backupPath != "" ==>
          && st.backupPath == BACKUP_PATH && BACKUP_PATH in st.files && pending != []
          && st.files[BACKUP_PATH] == Stacked(pending[..|pending| - 1], original))
  }

  lemma PathsDiffer()
    ensures CONF_PATH != BACKUP_PATH
  {
    assert |CONF_PATH| != |BACKUP_PATH|;
  }

  lemma ConfigurePushes(st: State, pending: seq<Settings>, original: string, s: Settings)
    requires StackFits(st, pending, original)
    ensures StackFits(Configure(st, s), pending + [s], original)
  {
    PathsDiffer();
    assert (pending + [s])[..|pending|] == pending;
    BlockIsNotEmpty(pending, original);
  }

  lemma BlockIsNotEmpty(pending: seq<Settings>, original: string)
    ensures pending != [] ==> |Stacked(pending, original)| > 0
  {
  }

  lemma TeardownPops(st: State, pending: seq<Settings>, original: string)
    requires StackFits(st, pending, original) && pending != []
    requires st.backupPath == "" ==> FooterComesLast(pending[|pending| - 1])
    ensures StackFits(Teardown(st).0, pending[..|pending| - 1], original)
    ensures Teardown(st).0.backupPath == "" && Teardown(st).1 == Pass
  {
    PathsDiffer();
    var top, under := pending[|pending| - 1], Stacked(pending[..|pending| - 1], original);
    if st.backupPath == "" {
      CutUndoesPrepend(top, under);
      assert Cut(st.files[CONF_PATH]) == under;
    } else {
      assert Teardown(st).0.files[CONF_PATH] == under;
    }
  }

  lemma {:induction false} RunsStack(st: State, ops: seq<Op>)
    requires st.backupPath == "" && Nested(ops) && CutsAreClean(st, ops)
    ensures StackFits(Run(st, ops), Pending(ops), Contents(st.files))
  {
    if ops != [] {
      var front, pending := ops[..|ops| - 1], Pending(ops[..|ops| - 1]);
      RunsStack(st, front);
      match ops[|ops| - 1]
      case Configuring(s) => ConfigurePushes(Run(st, front), pending, Contents(st.files), s);
      case TearingDown => TeardownPops(Run(st, front), pending, Contents(st.files));
    }
  }

  // ---- counting footers: a bad cut is never made good ----

  function CountFrom(text: string, i: nat): nat
    decreases |text| - i
  {
    if i >= |text| then 0 else CountFrom(text, i + 1) + if OccursAt(text, FOOTER, i) then 1 else 0
  }

  function Footers(text: string): nat {
    CountFrom(text, 0)
  }

  lemma {:induction false} CountOfSuffix(a: string, b: string, i: nat)
    requires i <= |b|
    ensures CountFrom(a + b, |a| + i) == CountFrom(b, i)
    decreases |b| - i
  {
    if i < |b| {
      CountOfSuffix(a, b, i + 1);
      OccursInSuffix(a, b, i);
    }
  }

  lemma OccursInSuffix(a: string, b: string, i: nat)
    ensures OccursAt(a + b, FOOTER, |a| + i) <==> OccursAt(b, FOOTER, i)
  {
    if i + |FOOTER| <= |b| {
      assert (a + b)[|a| + i..|a| + i + |FOOTER|] == b[i..i + |FOOTER|];
    }
  }

  /** Between two places without a footer nothing is counted, and never less further to the left. */
  lemma {:induction false} CountBetween(text: string, i: nat, j: nat)
    requires i <= j <= |text|
    ensures CountFrom(text, i) >= CountFrom(text, j)
    ensures (forall k: nat | i <= k < j :: !OccursAt(text, FOOTER, k)) ==> CountFrom(text, i) == CountFrom(text, j)
    decreases j - i
  {
    if i < j { CountBetween(text, i + 1, j); }
  }

  /** No footer starts inside a footer, nor at the line break after one. */
  lemma NoFooterInside(text: string, at: nat, k: nat)
    requires OccursAt(text, FOOTER, at) && at < k
    requires k < at + |FOOTER| || (k == at + |FOOTER| < |text| && text[k] == '\n')
    ensures !OccursAt(text, FOOTER, k)
  {
    Markers();
    FooterTail(k - at);
    if k < at + |FOOTER| { assert text[k] == text[at..at + |FOOTER|][k - at]; }
    if k < |text| { Mismatch(text, FOOTER, k, 0); }
  }

  lemma FooterTail(i: nat)
    requires 0 < i
    ensures i < |FOOTER| ==> FOOTER[i] != '#'
  {
    PlainName();
    assert FOOTER == "#" + (" END " + BLOCK_NAME);
    assert Plain(" END ");
    PlainConcat(" END ", BLOCK_NAME);
    if i < |FOOTER| { PlainAt(" END " + BLOCK_NAME, i - 1); }
  }

  /** A cut takes away one footer at most. */
  lemma CutTakesOneFooter(text: string)
    ensures Footers(Cut(text)) + 1 >= Footers(text)
  {
    var start, end := Index(text, HEADER), Index(text, FOOTER);
    if start >= 0 && end >= 0 {
      var past := end + |FOOTER|;
      var past' := if past < |text| && text[past] == '\n' then past + 1 else past;
      forall k: nat | end + 1 <= k < past' ensures !OccursAt(text, FOOTER, k) {
        NoFooterInside(text, end, k);
      }
      OneFooterBefore(text, end, past');
      FootersOfTail(text, text[..past'], text[past'..]);
      FootersOfTail(Cut(text), text[..start], text[past'..]);
    }
  }

  /** With the first footer at `end` and no other one before `past`, all but one lie from there on. */
  lemma OneFooterBefore(text: string, end: nat, past: nat)
    requires end < past <= |text| && OccursAt(text, FOOTER, end)
    requires forall k: nat | k < end :: !OccursAt(text, FOOTER, k)
    requires forall k: nat | end + 1 <= k < past :: !OccursAt(text, FOOTER, k)
    ensures Footers(text) == CountFrom(text, past) + 1
  {
    hide OccursAt;
    CountBetween(text, 0, end);
    CountBetween(text, end + 1, past);
  }

  lemma FootersOfTail(text: string, front: string, back: string)
    requires text == front + back
    ensures Footers(text) >= CountFrom(text, |front|) == Footers(back)
  {
    hide OccursAt;
    CountBetween(text, 0, |front|);
    CountOfSuffix(front, back, 0);
  }

  /** The footers of a block and those of what follows are counted apart. */
  lemma BlockCountsApart(s: Settings, rest: string)
    ensures Footers(Block(s) + rest) == Footers(Block(s)) + Footers(rest)
  {
    CountOfSuffix(Block(s), rest, 0);
    BlockCountsApartFrom(s, rest, 0);
  }

  lemma {:induction false} BlockCountsApartFrom(s: Settings, rest: string, i: nat)
    requires i <= |Block(s)|
    ensures CountFrom(Block(s) + rest, i) == CountFrom(Block(s), i) + CountFrom(Block(s) + rest, |Block(s)|)
    decreases |Block(s)| - i
  {
    if i < |Block(s)| {
      BlockCountsApartFrom(s, rest, i + 1);
      FooterAnywhereInBlock(s, rest, i);
    }
  }

  lemma FooterAnywhereInBlock(s: Settings, rest: string, i: nat)
    requires i < |Block(s)|
    ensures OccursAt(Block(s) + rest, FOOTER, i) <==> OccursAt(Block(s), FOOTER, i)
  {
    if i <= |Opening(s)| {
      FooterInBlock(s, rest, i);
    } else {
      BlockParts(s, rest);
      NoFooterInside(Block(s) + rest, |Opening(s)|, i);
      OwnFooter(s);
      NoFooterInside(Block(s), |Opening(s)|, i);
    }
  }

  lemma OwnFooter(s: Settings)
    ensures OccursAt(Block(s), FOOTER, |Opening(s)|)
    ensures |Block(s)| == |Opening(s)| + |FOOTER| + 1 && Block(s)[|Block(s)| - 1] == '\n'
  {
    OccursBetween(Opening(s), FOOTER, "\n");
  }

  /** A block holds its own footer, and another one unless that comes first. */
  lemma FootersOfBlock(s: Settings)
    ensures Footers(Block(s)) >= if FooterComesLast(s) then 1 else 2
  {
    hide Block, OccursAt;
    OwnFooter(s);
    var own := |Opening(s)|;
    assert CountFrom(Block(s), own) >= 1;
    CountBetween(Block(s), 0, own);
    if !FooterComesLast(s) {
      var i: nat :| i < own && OccursAt(Block(s), FOOTER, i);
      CountBetween(Block(s), 0, i);
      CountBetween(Block(s), i + 1, own);
    }
  }

  /** The file has more footers than the stack it should be; a backup is still what lies under the top block. */
  ghost predicate Surplus(st: State, pending: seq<Settings>, original: string) {
    && Footers(Contents(st.files)) > Footers(Stacked(pending, original))
    && (st.backupPath != "" ==>
          && st.backupPath == BACKUP_PATH && BACKUP_PATH in st.files && pending != []
          && Contents(st.files) == Block(pending[|pending| - 1]) + st.files[BACKUP_PATH])
  }

  lemma FootersOfStack(pending: seq<Settings>, original: string)
    requires pending != []
    ensures Footers(Stacked(pending, original))
         == Footers(Block(pending[|pending| - 1])) + Footers(Stacked(pending[..|pending| - 1], original))
  {
    BlockCountsApart(pending[|pending| - 1], Stacked(pending[..|pending| - 1], original));
  }

  lemma BadCutLeavesSurplus(st: State, pending: seq<Settings>, original: string)
    requires StackFits(st, pending, original) && pending != []
    requires st.backupPath == "" && !FooterComesLast(pending[|pending| - 1])
    ensures Surplus(Teardown(st).0, pending[..|pending| - 1], original)
  {
    hide Footers, Cut, Block;
    FootersOfStack(pending, original);
    FootersOfBlock(pending[|pending| - 1]);
    CutTakesOneFooter(Contents(st.files));
  }

  lemma SurplusStays(st: State, pending: seq<Settings>, original: string, op: Op)
    requires Surplus(st, pending, original) && (op.TearingDown? ==> pending != [])
    ensures Surplus(Do(st, op),
                    if op.Configuring? then pending + [op.settings] else pending[..|pending| - 1], original)
  {
    NoFootersInNothing();
    PathsDiffer();
    hide Footers, Cut, Block;
    match op
    case Configuring(s) =>
      assert (pending + [s])[..|pending|] == pending;
      FootersOfStack(pending + [s], original);
      BlockCountsApart(s, Contents(st.files));
    case TearingDown =>
      var top := pending[|pending| - 1];
      FootersOfStack(pending, original);
      if st.backupPath == "" {
        FootersOfBlock(top);
        CutTakesOneFooter(Contents(st.files));
      } else {
        BlockCountsApart(top, st.files[BACKUP_PATH]);
      }
  }

  lemma NoFootersInNothing()
    ensures Footers("") == 0
  {
  }

  lemma {:induction false} UncleanRunsLeaveSurplus(st: State, ops: seq<Op>)
    requires st.backupPath == "" && Nested(ops) && !CutsAreClean(st, ops)
    ensures Surplus(Run(st, ops), Pending(ops), Contents(st.files))
  {
    var front, pending := ops[..|ops| - 1], Pending(ops[..|ops| - 1]);
    if CutsAreClean(st, front) {
      RunsStack(st, front);
      BadCutLeavesSurplus(Run(st, front), pending, Contents(st.files));
    } else {
      UncleanRunsLeaveSurplus(st, front);
      SurplusStays(Run(st, front), pending, Contents(st.files), ops[|ops| - 1]);
    }
  }

  /** One manager, any nesting of configures and teardowns, any settings, any original contents, including
      ones that already hold managed blocks: the file is the stack of the pending blocks on the original
      iff every teardown that had to cut found a block whose own footer is the first. */
  lemma RunIsTheStackIff(st: State, ops: seq<Op>)
    requires st.backupPath == "" && Nested(ops)
    ensures Contents(Run(st, ops).files) == Stacked(Pending(ops), Contents(st.files)) <==> CutsAreClean(st, ops)
  {
    if CutsAreClean(st, ops) {
      RunsStack(st, ops);
    } else {
      UncleanRunsLeaveSurplus(st, ops);
    }
  }

  /** In particular, when every configure has been torn down the original text is back iff the cuts were clean. */
  lemma NestedRunsRestoreIff(st: State, ops: seq<Op>)
    requires st.backupPath == "" && Nested(ops) && Pending(ops) == []
    ensures Contents(Run(st, ops).files) == Contents(st.files) <==> CutsAreClean(st, ops)
  {
    RunIsTheStackIff(st, ops);
  }

  /** Settings without '#' are always clean. */
  lemma {:induction false} PlainRunsAreClean(st: State, ops: seq<Op>)
    requires forall op | op in ops && op.Configuring? :: PlainSettings(op.settings)
    ensures CutsAreClean(st, ops)
    ensures forall s | s in Pending(ops) :: PlainSettings(s)
  {
    if ops != [] {
      var front := ops[..|ops| - 1];
      PlainRunsAreClean(st, front);
      assert ops[|ops| - 1] in ops;
      var pending := Pending(front);
      if pending != [] {
        assert pending[|pending| - 1] in pending;
        PlainSettingsSuffice(pending[|pending| - 1]);
      }
    }
  }

  lemma NestedRunsRestore(st: State, ops: seq<Op>)
    requires st.backupPath == "" && Nested(ops) && Pending(ops) == []
    requires forall op | op in ops && op.Configuring? :: PlainSettings(op.settings)
    ensures Contents(Run(st, ops).files) == Contents(st.files)
    ensures Run(st, ops).backupPath == ""
  {
    PlainRunsAreClean(st, ops);
    RunsStack(st, ops);
  }

  lemma OneConfigureAndTeardown(st: State, s: Settings)
    ensures Run(st, [Configuring(s), TearingDown]) == Teardown(Configure(st, s)).0
    ensures Nested([Configuring(s), TearingDown]) && Pending([Configuring(s), TearingDown]) == []
    ensures CutsAreClean(st, [Configuring(s), TearingDown])
       <==> (Configure(st, s).backupPath == "" ==> FooterComesLast(s))
  {
    var ops := [Configuring(s), TearingDown];
    assert ops[..1] == [Configuring(s)] && [Configuring(s)][..0] == [];
    assert Run(st, [Configuring(s)][..0]) == st;
    assert Run(st, [Configuring(s)]) == Configure(st, s);
    assert Pending([Configuring(s)]) == [s] && Nested([Configuring(s)]) && CutsAreClean(st, [Configuring(s)]);
  }

  /** One configure and its teardown: what was there is back iff there was something, so that there is a
      backup, or the block smuggles in no footer. */
  lemma TeardownUndoesConfigureIff(st: State, s: Settings)
    requires st.backupPath == ""
    ensures Contents(Teardown(Configure(st, s)).0.files) == Contents(st.files)
       <==> Contents(st.files) != "" || FooterComesLast(s)
  {
    OneConfigureAndTeardown(st, s);
    NestedRunsRestoreIff(st, [Configuring(s), TearingDown]);
  }

  /** A search domain with a footer in it, on an empty or missing file: some of the block stays behind. */
  lemma SmuggledFooterStays(st: State, servers: seq<string>)
    requires st.backupPath == "" && Contents(st.files) == ""
    ensures Contents(Teardown(Configure(st, Settings(servers, [FOOTER]))).0.files) != ""
  {
    FooterAsDomain(servers);
    TeardownUndoesConfigureIff(st, Settings(servers, [FOOTER]));
  }

  // ---- two managers ----

  /** Two managers configure, and the second one is torn down first. */
  function SecondOutFirst(files: map<string, string>, s1: Settings, s2: Settings): map<string, string> {
    var one := Configure(State(files, ""), s1);
    var two := Configure(State(one.files, ""), s2);
    var between := Teardown(two).0;
    Teardown(State(between.files, one.backupPath)).0.files
  }

  /** Two managers configure, and the first one is torn down first. */
  function FirstOutFirst(files: map<string, string>, s1: Settings, s2: Settings): map<string, string> {
    var one := Configure(State(files, ""), s1);
    var two := Configure(State(one.files, ""), s2);
    var between := Teardown(State(two.files, one.backupPath)).0;
    Teardown(State(between.files, two.backupPath)).0.files
  }

  /** Two managers that overlap share one backup file.  Torn down in the order of a stack they restore
      the file iff there was nothing in it and the first block does not smuggle in a footer. */
  lemma StackedManagersRestoreIff(files: map<string, string>, s1: Settings, s2: Settings)
    ensures Contents(SecondOutFirst(files, s1, s2)) == Contents(files)
       <==> Contents(files) == "" && FooterComesLast(s1)
  {
    hide Block;
    StackedManagersLeave(files, s1, s2);
    CutUndoesPrepend(s1, "");
    BlockHasText(s1);
    assert Block(s1) + "" == Block(s1);
  }

  lemma BlockHasText(s: Settings)
    ensures |Block(s)| > 0
  {
  }

  lemma StackedManagersLeave(files: map<string, string>, s1: Settings, s2: Settings)
    ensures Contents(SecondOutFirst(files, s1, s2))
         == if Contents(files) == "" then Cut(Block(s1)) else Block(s1) + Contents(files)
  {
    hide Block, Cut;
    PathsDiffer();
    BlockHasText(s1);
    assert Block(s1) + "" == Block(s1);
  }

  /** Torn down in the other order they never do: the first manager's block stays in front. */
  lemma CrossedManagersLeaveABlock(files: map<string, string>, s1: Settings, s2: Settings)
    ensures Contents(FirstOutFirst(files, s1, s2)) == Block(s1) + Contents(files) != Contents(files)
  {
    PathsDiffer();
    assert Block(s1) + "" == Block(s1);
  }

  // ---- the code ----

  class FileSystem {
    var files: map<string, string>

    /** Some text, or None if there is no such file. */
    method ReadFile(path: string) returns (text: Option<string>)
      ensures text == if path in files then Some(files[path]) else None
    {
      text := if path in files then Some(files[path]) else None;
    }

    method WriteFile(path: string, text: string)
      modifies this
      ensures files == old(files)[path := text]
    {
      files := files[path := text];
    }

    method Remove(path: string)
      modifies this
      ensures files == old(files) - {path}
    {
      files := files - {path};
    }
  }

  method BlockText(nameservers: seq<string>, searchDomains: seq<string>) returns (text: string)
    ensures text == Block(Settings(nameservers, searchDomains))
  {
    text := HEADER + "\n";
    var body := "";
    for i := 0 to |nameservers|
      invariant body == NameserverLines(nameservers[..i])
    {
      assert nameservers[..i + 1][..i] == nameservers[..i];
      body := body + "nameserver " + nameservers[i] + "\n";
    }
    assert nameservers[..|nameservers|] == nameservers;
    if |searchDomains| > 0 {
      body := body + ("search " + Join(searchDomains) + "\n");
    }
    text := text + body + FOOTER + "\n";
  }

  class Manager {
    const fs: FileSystem
    var backupPath: string

    constructor (fs: FileSystem)
      ensures this.fs == fs && backupPath == ""
    {
      this.fs := fs;
      backupPath := "";
    }

    ghost function Current(): State
      reads this, fs
    {
      State(fs.files, backupPath)
    }

    method ConfigureDirectFile(nameservers: seq<string>, searchDomains: seq<string>, trouble: Trouble)
      returns (r: Outcome)
      modifies this, fs
      ensures (Current(), r) == ConfigureWith(old(Current()), Settings(nameservers, searchDomains), trouble)
    {
      if trouble == ReadFails {
        return Fail;
      }
      var read := fs.ReadFile(CONF_PATH);
      var existing := if read.Some? then read.value else "";
      if |existing| > 0 {
        if trouble.BackupFails? {
          fs.WriteFile(BACKUP_PATH, trouble.left);
          return Fail;
        }
        fs.WriteFile(BACKUP_PATH, existing);
        backupPath := BACKUP_PATH;
      }
      var text := BlockText(nameservers, searchDomains);
      if trouble.WriteFails? {
        fs.WriteFile(CONF_PATH, trouble.left);
        return Fail;
      }
      fs.WriteFile(CONF_PATH, text + existing);
      return Pass;
    }

    method TeardownDirectFile(trouble: Trouble) returns (r: Outcome)
      modifies this, fs
      ensures (Current(), r) == TeardownWith(old(Current()), trouble)
    {
      if backupPath == "" {
        r := RemoveManagedBlock(trouble);
        return;
      }
      if trouble == ReadFails {
        return Fail;
      }
      var backup := fs.ReadFile(backupPath);
      if backup.None? {
        return Fail;
      }
      if trouble.WriteFails? {
        fs.WriteFile(CONF_PATH, trouble.left);
        return Fail;
      }
      fs.WriteFile(CONF_PATH, backup.value);
      if trouble != RemoveFails {
        fs.Remove(backupPath);
      }
      backupPath := "";
      return Pass;
    }

    method RemoveManagedBlock(trouble: Trouble) returns (r: Outcome)
      requires backupPath == ""
      modifies fs
      ensures (Current(), r) == TeardownWith(old(Current()), trouble)
    {
      hide Index;
      if trouble == ReadFails {
        return Pass;
      }
      var data := fs.ReadFile(CONF_PATH);
      if data.None? {
        return Pass;
      }
      var content := data.value;
      var startIdx, endIdx := Index(content, HEADER), Index(content, FOOTER);
      if startIdx < 0 || endIdx < 0 {
        return Pass;
      }
      endIdx := endIdx + |FOOTER|;
      if endIdx < |content| && content[endIdx] == '\n' {
        endIdx := endIdx + 1;
      }
      if trouble.WriteFails? {
        fs.WriteFile(CONF_PATH, trouble.left);
        return Fail;
      }
      fs.WriteFile(CONF_PATH, content[..startIdx] + content[endIdx..]);
      return Pass;
    }
  }
}
