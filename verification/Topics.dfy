/** Row filters of a channel join: their grammar, and the ids the server gives them. */
module Topics {
  import opened Common

  datatype Filter = EqFilter(column: string, value: string) | InFilter(column: string, values: seq<string>)

  // ---------- characters and pieces ----------

  predicate IsLetter(c: char) { 'a' <= c <= 'z' || 'A' <= c <= 'Z' || c == '_' }

  predicate IsColumn(s: string) {
    s != [] && IsLetter(s[0]) && forall i :: 0 <= i < |s| ==> IsLetter(s[i]) || IsDigit(s[i])
  }

  /** What `.+` matches: one or more characters, none of them a line break. */
  predicate IsText(s: string) {
    s != [] && forall i :: 0 <= i < |s| ==> s[i] != '\n'
  }

  /** The position of the first `c`, or the length. */
  function IndexOf(s: string, c: char): (n: nat)
    ensures n <= |s| && (n < |s| ==> s[n] == c)
  {
    if s == [] || s[0] == c then 0 else 1 + IndexOf(s[1..], c)
  }

  lemma {:induction false} IndexOfIsFirst(s: string, c: char)
    ensures c !in s[..IndexOf(s, c)]
  {
    if s != [] && s[0] != c {
      IndexOfIsFirst(s[1..], c);
      assert s[..IndexOf(s, c)] == [s[0]] + s[1..][..IndexOf(s[1..], c)];
    }
  }

  lemma {:induction false} IndexOfJoined(a: string, c: char, b: string)
    requires c !in a
    ensures IndexOf(a + [c] + b, c) == |a|
  {
    if a != [] {
      assert (a + [c] + b)[1..] == a[1..] + [c] + b;
      IndexOfJoined(a[1..], c, b);
    }
  }

  /** `s.split(",")`. */
  function Split(s: string): (r: seq<string>)
    ensures |r| > 0
    decreases |s|
  {
    var n := IndexOf(s, ',');
    if n == |s| then [s] else [s[..n]] + Split(s[n + 1..])
  }

  /** `",".join(parts)`. */
  function Join(parts: seq<string>): string {
    if parts == [] then ""
    else if |parts| == 1 then parts[0]
    else parts[0] + "," + Join(parts[1..])
  }

  /** The trimmed parts that are not empty. */
  function Cleaned(parts: seq<string>): seq<string> {
    if parts == [] then []
    else
      var first := Trim(parts[0]);
      (if first == "" then [] else [first]) + Cleaned(parts[1..])
  }

  // ---------- parse and print ----------

  function ParseIn(column: string, raw: string): Option<Filter> {
    if |raw| < 3 || raw[0] != '(' || raw[|raw| - 1] != ')' then None
    else
      var values := Cleaned(Split(raw[1..|raw| - 1]));
      if values == [] then None else Some(InFilter(column, values))
  }

  function Parse(s: string): Option<Filter> {
    var n := IndexOf(s, '=');
    if n == |s| || !IsColumn(s[..n]) then None
    else
      var rest := s[n + 1..];
      if |rest| < 4 || rest[2] != '.' || !IsText(rest[3..]) then None
      else if rest[..2] == "eq" then Some(EqFilter(s[..n], rest[3..]))
      else if rest[..2] == "in" then ParseIn(s[..n], rest[3..])
      else None
  }

  function Print(f: Filter): string {
    match f
    case EqFilter(column, value) => column + "=" + ("eq." + value)
    case InFilter(column, values) => column + "=" + ("in." + ("(" + Join(values) + ")"))
  }

  /** A value that survives the trip through an `in` list. */
  predicate IsListed(v: string) {
    IsText(v) && Trimmed(v) && ',' !in v
  }

  predicate IsFilter(f: Filter) {
    match f
    case EqFilter(column, value) => IsColumn(column) && IsText(value)
    case InFilter(column, values) =>
      IsColumn(column) && values != [] && forall i :: 0 <= i < |values| ==> IsListed(values[i])
  }

  // ---------- the round trip ----------

  lemma ColumnHasNoEquals(s: string)
    requires IsColumn(s)
    ensures '=' !in s
  {
  }

  lemma {:induction false} SplitOfJoin(parts: seq<string>)
    requires parts != [] && forall i :: 0 <= i < |parts| ==> ',' !in parts[i]
    ensures Split(Join(parts)) == parts
  {
    if |parts| == 1 {
      assert IndexOf(parts[0], ',') == |parts[0]|;
    } else {
      var rest := Join(parts[1..]);
      assert Join(parts) == parts[0] + [','] + rest;
      IndexOfJoined(parts[0], ',', rest);
      assert Join(parts)[..|parts[0]|] == parts[0] && Join(parts)[|parts[0]| + 1..] == rest;
      SplitOfJoin(parts[1..]);
    }
  }

  lemma {:induction false} CleanedKeeps(parts: seq<string>)
    requires forall i :: 0 <= i < |parts| ==> parts[i] != "" && Trimmed(parts[i])
    ensures Cleaned(parts) == parts
  {
    if parts != [] {
      TrimIsTrimmed(parts[0]);
      CleanedKeeps(parts[1..]);
    }
  }

  lemma {:induction false} JoinIsText(parts: seq<string>)
    requires parts != [] && forall i :: 0 <= i < |parts| ==> IsText(parts[i])
    ensures IsText(Join(parts))
  {
    if |parts| > 1 { JoinIsText(parts[1..]); }
  }

  /** The common outer shape of a printed filter, taken apart again. */
  lemma ParseOuter(column: string, op: string, text: string)
    requires IsColumn(column) && |op| == 2 && IsText(text)
    ensures var s := column + "=" + (op + "." + text);
      && IndexOf(s, '=') == |column| && |column| < |s| && s[..|column|] == column
      && s[|column| + 1..] == op + "." + text
      && (op + "." + text)[..2] == op && (op + "." + text)[2] == '.' && (op + "." + text)[3..] == text
  {
    ColumnHasNoEquals(column);
    IndexOfJoined(column, '=', op + "." + text);
    assert column + "=" + (op + "." + text) == column + ['='] + (op + "." + text);
  }

  lemma ParseUndoesPrint(f: Filter)
    requires IsFilter(f)
    ensures Parse(Print(f)) == Some(f)
  {
    match f
    case EqFilter(column, value) =>
      assert "eq." + value == "eq" + "." + value;
      ParseOuter(column, "eq", value);
    case InFilter(column, values) =>
      var raw := "(" + Join(values) + ")";
      JoinIsText(values);
      assert "in." + raw == "in" + "." + raw;
      ParseOuter(column, "in", raw);
      assert raw[1..|raw| - 1] == Join(values);
      SplitOfJoin(values);
      CleanedKeeps(values);
  }

  lemma {:induction false} SplitParts(s: string)
    ensures forall i :: 0 <= i < |Split(s)| ==> ',' !in Split(s)[i] && forall c | c in Split(s)[i] :: c in s
    decreases |s|
  {
    var n := IndexOf(s, ',');
    IndexOfIsFirst(s, ',');
    if n < |s| {
      SplitParts(s[n + 1..]);
      assert Split(s)[1..] == Split(s[n + 1..]);
    } else {
      assert s[..n] == s;
    }
  }

  lemma {:induction false} CleanedParts(parts: seq<string>)
    requires forall i :: 0 <= i < |parts| ==> ',' !in parts[i] && '\n' !in parts[i]
    ensures forall i :: 0 <= i < |Cleaned(parts)| ==> IsListed(Cleaned(parts)[i])
  {
    if parts != [] {
      TrimIsTrimmed(parts[0]);
      CleanedParts(parts[1..]);
    }
  }

  /** Whatever is accepted is a printable filter, and printing it back and parsing again changes nothing. */
  lemma ParsedIsPrintable(s: string)
    requires Parse(s).Some?
    ensures IsFilter(Parse(s).value)
    ensures Parse(Print(Parse(s).value)) == Parse(s)
  {
    var n := IndexOf(s, '=');
    var raw := s[n + 1..][3..];
    if s[n + 1..][..2] == "in" {
      var body := raw[1..|raw| - 1];
      SplitParts(body);
      CleanedParts(Split(body));
    }
    ParseUndoesPrint(Parse(s).value);
  }

  // ---------- filters against rows ----------

  // A row as the notification carries it: every column already in its string form, SQL null as None.
  type Record = map<string, Option<string>>

  /** A null or missing column compares as the empty string. */
  function Coerce(row: Record, column: string): string {
    if column in row && row[column].Some? then row[column].value else ""
  }

  predicate Selects(f: Filter, row: Record) {
    match f
    case EqFilter(column, value) => Coerce(row, column) == value
    case InFilter(column, values) => Coerce(row, column) in values
  }

  /** No accepted filter selects a row whose column is null or missing. */
  lemma NullIsNeverSelected(s: string, row: Record)
    requires Parse(s).Some?
    ensures Selects(Parse(s).value, row) ==> Parse(s).value.column in row && row[Parse(s).value.column].Some?
  {
    ParsedIsPrintable(s);
    var f := Parse(s).value;
    if f.InFilter? {
      forall i | 0 <= i < |f.values| ensures f.values[i] != "" { assert IsListed(f.values[i]); }
    }
  }
}
