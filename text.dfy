/** The few Python string operations the core relies on: `in`, `lower`, `strip`, `split`. */
module Text {
  import opened Wrappers

  /** `pat` occurs in `s` starting at position `j`. */
  predicate OccursAt(s: string, pat: string, j: int)
  {
    0 <= j && j + |pat| <= |s| && s[j..j + |pat|] == pat
  }

  /** Position of the first occurrence of `pat` in `s` (Python's `s.find(pat)`, with `None` for -1). */
  function IndexOf(s: string, pat: string): (r: Option<nat>)
    ensures r.Some? ==> OccursAt(s, pat, r.value)
    ensures r.Some? ==> forall j :: 0 <= j < r.value ==> !OccursAt(s, pat, j)
    ensures r.None? ==> forall j :: !OccursAt(s, pat, j)
    decreases |s|
  {
    if |s| < |pat| then
      assert forall j :: !OccursAt(s, pat, j);
      None
    else if s[..|pat|] == pat then
      Some(0)
    else
      OccursAtShift(s, pat);
      match IndexOf(s[1..], pat)
      case None => None
      case Some(k) => Some(k + 1)
  }

  /** An occurrence after the first character is an occurrence in the tail, one position earlier. */
  lemma OccursAtShift(s: string, pat: string)
    requires s != []
    ensures forall j :: 0 < j ==> (OccursAt(s, pat, j) <==> OccursAt(s[1..], pat, j - 1))
  {
    forall j | 0 < j
      ensures OccursAt(s, pat, j) <==> OccursAt(s[1..], pat, j - 1)
    {
      if j + |pat| <= |s| {
        assert s[j..j + |pat|] == s[1..][j - 1..j - 1 + |pat|];
      }
    }
  }

  /** Python's `pat in s` on strings. */
  predicate Contains(s: string, pat: string)
  {
    IndexOf(s, pat).Some?
  }

  /** `str.lower()`, restricted to ASCII letters. */
  function LowerChar(c: char): char
  {
    if 'A' <= c <= 'Z' then (c as int + 32) as char else c
  }

  function Lower(s: string): (r: string)
    ensures |r| == |s|
    ensures forall i :: 0 <= i < |s| ==> r[i] == LowerChar(s[i])
  {
    seq(|s|, i requires 0 <= i < |s| => LowerChar(s[i]))
  }

  /**
   * The characters `str.strip()` removes: those for which `str.isspace()` holds. In ASCII these are
   * tab to carriage return, the four information separators 0x1C-0x1F and the space; beyond ASCII,
   * next-line, no-break space and the Unicode space separators.
   */
  predicate IsSpace(c: char)
  {
    var n := c as int;
    || 9 <= n <= 13 || 28 <= n <= 32 || n == 0x85 || n == 0xA0 || n == 0x1680
    || 0x2000 <= n <= 0x200A || n == 0x2028 || n == 0x2029 || n == 0x202F || n == 0x205F || n == 0x3000
  }

  function StripLeft(s: string): (r: string)
    ensures |r| <= |s| && r == s[|s| - |r|..]
    ensures r == [] || !IsSpace(r[0])
    ensures forall i :: 0 <= i < |s| - |r| ==> IsSpace(s[i])
    decreases |s|
  {
    if s != [] && IsSpace(s[0]) then
      var r := StripLeft(s[1..]);
      assert forall i :: 1 <= i < |s| - |r| ==> s[i] == s[1..][i - 1];
      r
    else s
  }

  function StripRight(s: string): (r: string)
    ensures |r| <= |s| && r == s[..|r|]
    ensures r == [] || !IsSpace(r[|r| - 1])
    ensures forall i :: |r| <= i < |s| ==> IsSpace(s[i])
    decreases |s|
  {
    if s != [] && IsSpace(s[|s| - 1]) then
      var r := StripRight(s[..|s| - 1]);
      assert forall i :: |r| <= i < |s| - 1 ==> s[i] == s[..|s| - 1][i];
      r
    else s
  }

  /** `str.strip()`: drop leading and trailing whitespace. */
  function Strip(s: string): (r: string)
  {
    StripRight(StripLeft(s))
  }

  /** The information separators are whitespace to `str.strip()`: `"\x1cname\x1f".strip()` is `"name"`. */
  lemma StripRemovesSeparators(name: string)
    requires name != [] && !IsSpace(name[0]) && !IsSpace(name[|name| - 1])
    ensures Strip([28 as char] + name + [31 as char]) == name
  {
    var s := [28 as char] + name + [31 as char];
    assert s[1..] == name + [31 as char];
    assert StripLeft(s) == StripLeft(s[1..]);
    assert StripLeft(name + [31 as char]) == name + [31 as char];
    assert (name + [31 as char])[..|name|] == name;
  }

  /** Python's `s.split(sep)` for a non-empty separator. */
  function Split(s: string, sep: string): (parts: seq<string>)
    requires sep != []
    ensures |parts| >= 1
    ensures IndexOf(s, sep).None? ==> parts == [s]
    ensures IndexOf(s, sep).Some? ==> parts[0] == s[..IndexOf(s, sep).value] && |parts| >= 2
    decreases |s|
  {
    match IndexOf(s, sep)
    case None => [s]
    case Some(i) => [s[..i]] + Split(s[i + |sep|..], sep)
  }

  /** `os.path.join(dir, name)` for a relative `name`: a separator is added unless `dir` is empty or already ends in one. */
  function JoinPath(dir: string, name: string): (p: string)
  {
    if dir == [] || dir[|dir| - 1] == '/' then dir + name else dir + "/" + name
  }
}
