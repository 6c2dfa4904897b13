/** Value types shared by every module of the recruitment backend model:
    optional values and results, HTTP errors, JSON documents (Python dicts),
    Python truthiness, and the few string operations the code relies on
    (`lower`, `upper`, `in`, `startswith`, `endswith`, `replace`, `find`,
    `rfind`, slicing, `os.path.basename`, `os.path.splitext`, `str`/`int` on
    integers). */
module Common {

  datatype Option<T> = None | Some(value: T)

  datatype Result<T, E> = Ok(value: T) | Err(error: E)

  /** An HTTP error response: status code and `detail` text. */
  datatype HttpError = HttpError(status: int, detail: string)

  /** What the server answers for an exception no handler catches. */
  const InternalError := HttpError(500, "Internal Server Error")

  /** A JSON value as Python's `json` module produces it (floats are not modelled). */
  datatype Json =
    | JNull
    | JBool(b: bool)
    | JInt(i: int)
    | JStr(s: string)
    | JArr(items: seq<Json>)
    | JObj(fields: map<string, Json>)

  /** A Python dict with string keys. */
  type JsonObject = map<string, Json>

  /** Python truthiness of a JSON value. */
  predicate Truthy(j: Json) {
    match j
    case JNull => false
    case JBool(b) => b
    case JInt(i) => i != 0
    case JStr(s) => s != []
    case JArr(items) => items != []
    case JObj(fields) => fields != map[]
  }

  /** `d.get(key, default)`. */
  function Get(d: JsonObject, key: string, default: Json): Json {
    if key in d then d[key] else default
  }

  function StrArray(ss: seq<string>): (r: Json)
    ensures r.JArr? && |r.items| == |ss|
    ensures forall i :: 0 <= i < |ss| ==> r.items[i] == JStr(ss[i])
  {
    JArr(seq(|ss|, i requires 0 <= i < |ss| => JStr(ss[i])))
  }

  function Min(a: int, b: int): int {
    if a <= b then a else b
  }

  // ---------------------------------------------------------------- case

  function LowerChar(c: char): char {
    if 'A' <= c <= 'Z' then (c as int + 32) as char else c
  }

  function UpperChar(c: char): char {
    if 'a' <= c <= 'z' then (c as int - 32) as char else c
  }

  /** `str.lower()`, on ASCII letters. */
  function Lower(s: string): (r: string)
    ensures |r| == |s|
    ensures forall i :: 0 <= i < |s| ==> r[i] == LowerChar(s[i])
  {
    seq(|s|, i requires 0 <= i < |s| => LowerChar(s[i]))
  }

  /** `str.upper()`, on ASCII letters. */
  function Upper(s: string): (r: string)
    ensures |r| == |s|
    ensures forall i :: 0 <= i < |s| ==> r[i] == UpperChar(s[i])
  {
    seq(|s|, i requires 0 <= i < |s| => UpperChar(s[i]))
  }

  // ------------------------------------------------------- substrings

  /** Python's `pat in s`. */
  predicate Contains(s: string, pat: string) {
    exists i | 0 <= i <= |s| - |pat| :: OccursAt(s, pat, i)
  }

  /** `pat` occurs in `s` starting at index `i`. */
  predicate OccursAt(s: string, pat: string, i: int) {
    0 <= i && i + |pat| <= |s| && s[i..i + |pat|] == pat
  }

  predicate StartsWith(s: string, prefix: string) {
    |prefix| <= |s| && s[..|prefix|] == prefix
  }

  predicate EndsWith(s: string, suffix: string) {
    |suffix| <= |s| && s[|s| - |suffix|..] == suffix
  }

  /** `s.replace(pat, rep)`: every non-overlapping occurrence, scanning left to right. */
  function ReplaceAll(s: string, pat: string, rep: string): string
    requires |pat| > 0
    decreases |s|
  {
    if |s| < |pat| then s
    else if s[..|pat|] == pat then rep + ReplaceAll(s[|pat|..], pat, rep)
    else [s[0]] + ReplaceAll(s[1..], pat, rep)
  }

  /** A text without the first character of the pattern is left alone by `replace`. */
  lemma {:induction false} ReplaceWithoutLead(s: string, pat: string, rep: string)
    requires |pat| > 0 && pat[0] !in s
    ensures ReplaceAll(s, pat, rep) == s
    decreases |s|
  {
    if |s| >= |pat| {
      assert s[..|pat|][0] == s[0];
      ReplaceWithoutLead(s[1..], pat, rep);
    }
  }

  /** Replacing a pattern that occurs only as the suffix rewrites just that suffix. */
  lemma {:induction false} ReplaceOnlySuffix(x: string, pat: string, rep: string)
    requires |pat| > 0 && pat[0] !in x
    ensures ReplaceAll(x + pat, pat, rep) == x + rep
    decreases |x|
  {
    var s := x + pat;
    if x == [] {
      assert s == pat && s[|pat|..] == [];
      assert ReplaceAll(s[|pat|..], pat, rep) == [];
    } else {
      assert s[..|pat|][0] == x[0];
      assert s[1..] == x[1..] + pat;
      ReplaceOnlySuffix(x[1..], pat, rep);
      assert [x[0]] + (x[1..] + rep) == x + rep;
    }
  }

  /** Removing a pattern that occurs only as the prefix leaves the text after it. */
  lemma RemoveOnlyPrefix(pat: string, y: string)
    requires |pat| > 0 && pat[0] !in y
    ensures ReplaceAll(pat + y, pat, "") == y
  {
    var s := pat + y;
    assert s[..|pat|] == pat && s[|pat|..] == y;
    ReplaceWithoutLead(y, pat, "");
  }

  /** `s.find(c)` for one character: the first index, or -1. */
  function Find(s: string, c: char): (r: int)
    ensures -1 <= r < |s|
    ensures r == -1 <==> c !in s
    ensures r >= 0 ==> s[r] == c && c !in s[..r]
  {
    if s == [] then -1
    else if s[0] == c then 0
    else
      var k := Find(s[1..], c);
      assert s[1..] == s[1..][..|s| - 1];
      if k == -1 then -1
      else
        assert s[..k + 1] == [s[0]] + s[1..][..k];
        k + 1
  }

  /** `s.rfind(c)` for one character: the last index, or -1. */
  function RFind(s: string, c: char): (r: int)
    ensures -1 <= r < |s|
    ensures r == -1 <==> c !in s
    ensures r >= 0 ==> s[r] == c && c !in s[r + 1..]
  {
    if s == [] then -1
    else if s[|s| - 1] == c then |s| - 1
    else
      var k := RFind(s[..|s| - 1], c);
      assert s == s[..|s| - 1] + [s[|s| - 1]];
      if k == -1 then -1
      else
        assert s[k + 1..] == s[..|s| - 1][k + 1..] + [s[|s| - 1]];
        k
  }

  /** `s[a:b]` for non-negative bounds: empty when `a >= b`, clipped at the end. */
  function Slice(s: string, a: nat, b: nat): (r: string)
    ensures a < b <= |s| ==> r == s[a..b]
    ensures b <= a ==> r == []
  {
    var hi := Min(b, |s|);
    if a < hi then s[a..hi] else []
  }

  // ------------------------------------------------------------ paths

  /** `os.path.basename`: the part after the last '/'. */
  function Basename(path: string): (r: string)
    ensures '/' !in r
    ensures EndsWith(path, r)
  {
    path[RFind(path, '/') + 1..]
  }

  /** The basename of a joined path is the joined name. */
  lemma BasenameOfJoin(dir: string, name: string)
    requires '/' !in name
    ensures Basename(dir + "/" + name) == name
  {
    var s := dir + "/" + name;
    var k := |dir|;
    var r := RFind(s, '/');
    assert s[k] == '/' && s[k + 1..] == name;
    assert r >= k ==> r == k;
    assert r <= k ==> s[k] in s[r + 1..] || r == k;
  }

  /** `os.path.splitext(name)[0]` for a name without '/': the last extension is
      removed unless the only dots before it are leading dots. */
  function SplitextRoot(name: string): string {
    var dot := RFind(name, '.');
    if dot > 0 && exists i :: 0 <= i < dot && name[i] != '.' then name[..dot] else name
  }

  // ---------------------------------------------------------- numbers

  predicate IsDigit(c: char) {
    '0' <= c <= '9'
  }

  predicate AllDigits(s: string) {
    forall i :: 0 <= i < |s| ==> IsDigit(s[i])
  }

  function DigitChar(d: nat): (c: char)
    requires d < 10
    ensures IsDigit(c) && (c as int) - ('0' as int) == d
  {
    ('0' as int + d) as char
  }

  /** `str(n)` for a natural number. */
  function NatToString(n: nat): (r: string)
    decreases n
  {
    if n < 10 then [DigitChar(n)] else NatToString(n / 10) + [DigitChar(n % 10)]
  }

  /** `str(i)` for an integer. */
  function IntToString(i: int): string {
    if i < 0 then "-" + NatToString(-i) else NatToString(i)
  }

  /** The value of a string of decimal digits. */
  function DigitsValue(s: string): nat
    requires AllDigits(s)
  {
    if s == [] then 0
    else DigitsValue(s[..|s| - 1]) * 10 + ((s[|s| - 1] as int) - ('0' as int))
  }

  /** `int(s)` on an optionally signed run of decimal digits, a subset of what
      Python's `int()` accepts (no surrounding whitespace, no `_` separators);
      None for anything else. */
  function ParseInt(s: string): Option<int> {
    if |s| > 0 && AllDigits(s) then Some(DigitsValue(s))
    else if |s| > 1 && (s[0] == '-' || s[0] == '+') && AllDigits(s[1..]) then
      var v: int := DigitsValue(s[1..]);
      Some(if s[0] == '-' then -v else v)
    else None
  }

  /** `str(n)` is a non-empty run of digits whose value is `n`. */
  lemma {:induction false} NatToStringDigits(n: nat)
    ensures |NatToString(n)| > 0 && AllDigits(NatToString(n))
    ensures DigitsValue(NatToString(n)) == n
    decreases n
  {
    if n >= 10 {
      NatToStringDigits(n / 10);
      var s := NatToString(n);
      assert s[..|s| - 1] == NatToString(n / 10);
    }
  }

  /** `int(str(i)) == i`. */
  lemma IntRoundTrip(i: int)
    ensures ParseInt(IntToString(i)) == Some(i)
  {
    if i < 0 {
      NatToStringDigits(-i);
      var s := IntToString(i);
      assert s[1..] == NatToString(-i);
    } else {
      NatToStringDigits(i);
    }
  }

  /** Python's `str()` of a scalar JSON value; containers are not rendered. */
  function PyStr(j: Json): string {
    match j
    case JNull => "None"
    case JBool(b) => if b then "True" else "False"
    case JInt(i) => IntToString(i)
    case JStr(s) => s
    case JArr(_) => "[...]"
    case JObj(_) => "{...}"
  }
}
