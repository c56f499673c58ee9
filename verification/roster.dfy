/**
 * The roster text injected into the system message: one line per vendor,
 * in roster order, joined by line breaks.
 */
module Roster {
  import opened Wrappers
  import opened StateNames

  /** One vendor record, each field already rendered as text. */
  datatype Company = Company(sno: string, name: string, city: string, state: string, address: string)

  /** `sep.join(parts)`: the parts with one `sep` between neighbours. */
  function Join(parts: seq<string>, sep: char): (s: string)
    ensures parts == [] ==> s == []
    ensures |parts| == 1 ==> s == parts[0]
    decreases |parts|
  {
    if parts == [] then []
    else if |parts| == 1 then parts[0]
    else parts[0] + [sep] + Join(parts[1..], sep)
  }

  /** `s.split(sep)`: the pieces between the occurrences of `sep`; never empty. */
  function Split(s: string, sep: char): (parts: seq<string>)
    ensures |parts| >= 1
    decreases |s|
  {
    if s == [] then [[]]
    else if s[0] == sep then [[]] + Split(s[1..], sep)
    else
      var rest := Split(s[1..], sep);
      [[s[0]] + rest[0]] + rest[1..]
  }

  /** Joining three parts puts the separator between the first two and between the last two. */
  lemma JoinThree(a: string, b: string, c: string, sep: char)
    ensures Join([a, b, c], sep) == a + [sep] + b + [sep] + c
  {
    assert [a, b, c][1..] == [b, c];
    assert [b, c][1..] == [c];
  }

  /** The columns of a roster line, in order; the state goes through the alias table. */
  function Columns(c: Company): (cols: seq<string>)
    ensures |cols| == 3
  {
    [c.sno + ". " + c.name + " ", "  " + (c.name + ", " + c.city + ", " + NormalizeState(c.state)) + " ", " " + c.address]
  }

  /** The three columns joined around their two bars spell out the f-string of a roster line. */
  lemma RegroupLine(sno: string, name: string, city: string, state: string, address: string)
    ensures (sno + ". " + name + " ") + ['|'] + ("  " + (name + ", " + city + ", " + state) + " ") + ['|'] + (" " + address)
      == sno + ". " + name + " |  " + name + ", " + city + ", " + state + " | " + address
  {
    assert " " + ['|'] + "  " == " |  " && " " + ['|'] + " " == " | ";
  }

  /** The f-string layout of a roster line is its three columns joined by bars. */
  lemma LineIsJoinedColumns(c: Company)
    ensures Join(Columns(c), '|')
      == c.sno + ". " + c.name + " |  " + c.name + ", " + c.city + ", " + NormalizeState(c.state) + " | " + c.address
  {
    var a, b, d := c.sno + ". " + c.name, c.name + ", " + c.city + ", " + NormalizeState(c.state), c.address;
    assert Columns(c) == [a + " ", "  " + b + " ", " " + d];
    JoinThree(a + " ", "  " + b + " ", " " + d, '|');
    RegroupLine(c.sno, c.name, c.city, NormalizeState(c.state), c.address);
  }

  /** The roster line of one vendor: its three columns joined by bars. */
  function RosterLine(c: Company): (line: string)
    ensures line == Join(Columns(c), '|')
  {
    LineIsJoinedColumns(c);
    c.sno + ". " + c.name + " |  " + c.name + ", " + c.city + ", " + NormalizeState(c.state) + " | " + c.address
  }

  /** The roster lines, in roster order. */
  function RosterLines(companies: seq<Company>): (lines: seq<string>)
    ensures |lines| == |companies|
    ensures forall i :: 0 <= i < |companies| ==> lines[i] == RosterLine(companies[i])
  {
    seq(|companies|, i requires 0 <= i < |companies| => RosterLine(companies[i]))
  }

  /** The roster text; a missing company list counts as empty. */
  function RosterText(companies: Option<seq<Company>>): (text: string)
    ensures companies.GetOr([]) == [] ==> text == []
    ensures |companies.GetOr([])| == 1 ==> text == RosterLine(companies.GetOr([])[0])
  {
    Join(RosterLines(companies.GetOr([])), '\n')
  }

  /** Splitting a text that starts with a piece free of `sep` yields that piece first. */
  lemma {:induction false} SplitPrefix(piece: string, rest: string, sep: char)
    requires sep !in piece
    ensures Split(piece + rest, sep) == [piece + Split(rest, sep)[0]] + Split(rest, sep)[1..]
    decreases |piece|
  {
    var tail := Split(rest, sep);
    if piece == [] {
      assert piece + rest == rest && piece + tail[0] == tail[0];
      assert [tail[0]] + tail[1..] == tail;
    } else {
      SplitPrefix(piece[1..], rest, sep);
      assert (piece + rest)[1..] == piece[1..] + rest;
      var r := Split(piece[1..] + rest, sep);
      assert r[0] == piece[1..] + tail[0] && r[1..] == tail[1..];
      assert [piece[0]] + (piece[1..] + tail[0]) == piece + tail[0];
    }
  }

  /** Joining pieces free of `sep` and splitting the text again gives the pieces back. */
  lemma {:induction false} SplitJoin(parts: seq<string>, sep: char)
    requires |parts| >= 1
    requires forall i :: 0 <= i < |parts| ==> sep !in parts[i]
    ensures Split(Join(parts, sep), sep) == parts
    decreases |parts|
  {
    if |parts| == 1 {
      SplitPrefix(parts[0], [], sep);
      assert parts[0] + [] == parts[0];
    } else {
      SplitJoin(parts[1..], sep);
      var tail := [sep] + Join(parts[1..], sep);
      assert Join(parts, sep) == parts[0] + tail;
      SplitPrefix(parts[0], tail, sep);
      assert tail[0] == sep && tail[1..] == Join(parts[1..], sep);
      assert parts[0] + [] == parts[0];
    }
  }

  /** Whether no field of the record contains `ch`. */
  predicate FieldsAvoid(c: Company, ch: char)
  {
    ch !in c.sno && ch !in c.name && ch !in c.city && ch !in c.state && ch !in c.address
  }

  /**
   * When no field of the record contains a bar, a roster line has three
   * `|`-separated columns: "sno. name ", "  name, city, normalised state "
   * and " address" (so a double space follows the first bar). Only the state
   * is rewritten, through the alias table. A bar inside a field adds columns.
   */
  lemma RosterLineColumns(c: Company)
    requires FieldsAvoid(c, '|')
    ensures Split(RosterLine(c), '|') == [
      c.sno + ". " + c.name + " ",
      "  " + (c.name + ", " + c.city + ", " + NormalizeState(c.state)) + " ",
      " " + c.address]
  {
    NormalizeAvoids(c.state, '|');
    var cols := Columns(c);
    forall i | 0 <= i < 3 ensures '|' !in cols[i] {
    }
    SplitJoin(cols, '|');
  }

  /** Joining with another separator introduces no `ch` that the parts lack. */
  lemma {:induction false} JoinAvoids(parts: seq<string>, sep: char, ch: char)
    requires sep != ch
    requires forall i :: 0 <= i < |parts| ==> ch !in parts[i]
    ensures ch !in Join(parts, sep)
    decreases |parts|
  {
    if |parts| > 1 {
      JoinAvoids(parts[1..], sep, ch);
    }
  }

  /** A roster line has no line break when the record's fields have none. */
  lemma RosterLineSingle(c: Company)
    requires FieldsAvoid(c, '\n')
    ensures '\n' !in RosterLine(c)
  {
    NormalizeAvoids(c.state, '\n');
    var cols := Columns(c);
    forall i | 0 <= i < 3 ensures '\n' !in cols[i] {
    }
    JoinAvoids(cols, '|', '\n');
  }

  /** An alias and its full name render the same roster line. */
  lemma AliasRendersAsFullName(c: Company)
    requires c.state in StateMap
    ensures RosterLine(c) == RosterLine(c.(state := StateMap[c.state]))
  {
  }

  /**
   * The roster text has exactly one line per vendor, in roster order: split
   * at line breaks it gives back the roster lines. An empty or missing list
   * gives the empty text.
   */
  lemma RosterTextLines(companies: Option<seq<Company>>)
    requires forall i :: 0 <= i < |companies.GetOr([])| ==> FieldsAvoid(companies.GetOr([])[i], '\n')
    ensures companies.GetOr([]) == [] ==> RosterText(companies) == []
    ensures companies.GetOr([]) != [] ==> Split(RosterText(companies), '\n') == RosterLines(companies.GetOr([]))
  {
    var cs := companies.GetOr([]);
    if cs != [] {
      var lines := RosterLines(cs);
      forall i | 0 <= i < |lines| ensures '\n' !in lines[i] {
        RosterLineSingle(cs[i]);
      }
      SplitJoin(lines, '\n');
    }
  }
}
