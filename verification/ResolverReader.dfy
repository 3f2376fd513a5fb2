/** How a resolver reads resolv.conf: line by line, a keyword and what follows it. */
module ResolverReader {

  /** The text between line breaks; a break at the end starts no further line. */
  function Lines(text: string): seq<string> {
    LinesFrom(text, "")
  }

  function LinesFrom(text: string, line: string): seq<string> {
    if text == "" then (if line == "" then [] else [line])
    else if text[0] == '\n' then [line] + LinesFrom(text[1..], "")
    else LinesFrom(text[1..], line + [text[0]])
  }

  /** What follows "nameserver ", in order. */
  function Servers(lines: seq<string>): seq<string> {
    if lines == [] then []
    else (if "nameserver " <= lines[0] then [lines[0][11..]] else []) + Servers(lines[1..])
  }

  /** The names on each "search " line, in order. */
  function SearchLists(lines: seq<string>): seq<seq<string>> {
    if lines == [] then []
    else (if "search " <= lines[0] then [Names(lines[0][7..], "")] else []) + SearchLists(lines[1..])
  }

  /** The text between spaces. */
  function Names(text: string, name: string): seq<string> {
    if text == "" then (if name == "" then [] else [name])
    else if text[0] == ' ' then (if name == "" then [] else [name]) + Names(text[1..], "")
    else Names(text[1..], name + [text[0]])
  }

  // ---- laws of the reader ----

  lemma {:induction false} ScanLine(line: string, rest: string, seen: string)
    requires '\n' !in line
    ensures LinesFrom(line + "\n" + rest, seen) == [seen + line] + Lines(rest)
  {
    var text := line + "\n" + rest;
    if line == "" {
      assert text[0] == '\n' && text[1..] == rest && seen + line == seen;
    } else {
      assert line[0] in line;
      assert text[0] == line[0] && text[1..] == line[1..] + "\n" + rest;
      assert seen + [line[0]] + line[1..] == seen + line;
      ScanLine(line[1..], rest, seen + [line[0]]);
    }
  }

  lemma FirstLine(line: string, rest: string)
    requires '\n' !in line
    ensures Lines(line + "\n" + rest) == [line] + Lines(rest)
  {
    ScanLine(line, rest, "");
    assert "" + line == line;
  }

  lemma {:induction false} NamesOfJoined(a: string, b: string, seen: string)
    ensures Names(a + " " + b, seen) == Names(a, seen) + Names(b, "")
  {
    if a == "" {
      assert (a + " " + b)[0] == ' ' && (a + " " + b)[1..] == b;
    } else {
      assert (a + " " + b)[1..] == a[1..] + " " + b;
      NamesOfJoined(a[1..], b, if a[0] == ' ' then "" else seen + [a[0]]);
    }
  }

  lemma {:induction false} OneName(name: string, seen: string)
    requires ' ' !in name && seen + name != ""
    ensures Names(name, seen) == [seen + name]
  {
    if name == "" {
      assert seen + name == seen;
    } else {
      assert name[0] in name;
      assert seen + [name[0]] + name[1..] == seen + name;
      OneName(name[1..], seen + [name[0]]);
    }
  }

  lemma {:induction false} ServersConcat(a: seq<string>, b: seq<string>)
    ensures Servers(a + b) == Servers(a) + Servers(b)
  {
    if a == [] {
      assert a + b == b;
    } else {
      assert (a + b)[1..] == a[1..] + b;
      ServersConcat(a[1..], b);
    }
  }

  lemma {:induction false} SearchListsConcat(a: seq<string>, b: seq<string>)
    ensures SearchLists(a + b) == SearchLists(a) + SearchLists(b)
  {
    if a == [] {
      assert a + b == b;
    } else {
      assert (a + b)[1..] == a[1..] + b;
      SearchListsConcat(a[1..], b);
    }
  }
}
