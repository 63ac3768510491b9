/**
 * The two `java.lang.String` operations the modelled code relies on:
 * `equalsIgnoreCase` (storage-mode check) and `trim` (template path check).
 */
module JavaStrings {

  /** The largest character `String.trim` strips (U+0020). */
  const SPACE: char := ' '

  /**
   * `Character.toUpperCase` for the characters that matter when one side of a
   * comparison is ASCII: ASCII letters, plus the two non-ASCII letters whose
   * upper case is an ASCII letter (dotless i, long s). Every other character
   * is left as it is.
   */
  function ToUpper(c: char): (u: char)
    ensures 'a' <= c <= 'z' ==> 'A' <= u <= 'Z'
    ensures 'A' <= c <= 'Z' ==> u == c
  {
    if 'a' <= c <= 'z' then (c as int - 32) as char
    else if c == 'ı' then 'I'
    else if c == 'ſ' then 'S'
    else c
  }

  /**
   * `Character.toLowerCase` restricted in the same way: ASCII letters, plus
   * the two non-ASCII letters whose lower case is an ASCII letter (dotted
   * capital I, Kelvin sign).
   */
  function ToLower(c: char): (l: char)
    ensures 'A' <= c <= 'Z' ==> 'a' <= l <= 'z'
    ensures 'a' <= c <= 'z' ==> l == c
  {
    if 'A' <= c <= 'Z' then (c as int + 32) as char
    else if c == 'İ' then 'i'
    else if c == 'K' then 'k'
    else c
  }

  /** The per-character rule of `String.regionMatches(true, ...)`. */
  predicate CharEqualsIgnoreCase(a: char, b: char) {
    a == b || ToUpper(a) == ToUpper(b) || ToLower(ToUpper(a)) == ToLower(ToUpper(b))
  }

  /** `s.equalsIgnoreCase(t)` for a non-null `t`: same length and every position matches. */
  function EqualsIgnoreCase(s: string, t: string): (r: bool)
    ensures r <==> |s| == |t| && forall i :: 0 <= i < |s| ==> CharEqualsIgnoreCase(s[i], t[i])
  {
    if |s| != |t| then false
    else if s == [] then true
    else CharEqualsIgnoreCase(s[0], t[0]) && EqualsIgnoreCase(s[1..], t[1..])
  }

  /** Whether `String.trim` removes `c`: every character up to and including U+0020. */
  predicate IsTrimmed(c: char) {
    c <= SPACE
  }

  /** `s` without its leading trimmed characters. */
  function TrimLeading(s: string): (r: string)
    ensures |r| <= |s| && r == s[|s| - |r|..]
    ensures r != [] ==> !IsTrimmed(r[0])
    ensures forall i :: 0 <= i < |s| - |r| ==> IsTrimmed(s[i])
  {
    if s != [] && IsTrimmed(s[0]) then TrimLeading(s[1..]) else s
  }

  /** `s` without its trailing trimmed characters. */
  function TrimTrailing(s: string): (r: string)
    ensures |r| <= |s| && r == s[..|r|]
    ensures r != [] ==> !IsTrimmed(r[|r| - 1])
    ensures forall i :: |r| <= i < |s| ==> IsTrimmed(s[i])
  {
    if s != [] && IsTrimmed(s[|s| - 1]) then TrimTrailing(s[..|s| - 1]) else s
  }

  /** `String.trim`: both ends stripped of characters up to U+0020. */
  function Trim(s: string): (r: string)
    ensures |r| <= |s|
  {
    TrimTrailing(TrimLeading(s))
  }

  /** `s.trim().length() == 0` holds exactly when every character of `s` is trimmed. */
  lemma {:induction false} TrimIsEmptyIffBlank(s: string)
    ensures Trim(s) == [] <==> forall i :: 0 <= i < |s| ==> IsTrimmed(s[i])
  {
    var lead := TrimLeading(s);
    if lead == [] {
      assert forall i :: 0 <= i < |s| ==> IsTrimmed(s[i]);
    } else {
      var k := |s| - |lead|;
      assert s[k] == lead[0];
      assert !IsTrimmed(s[k]);
      assert TrimTrailing(lead) != [] by {
        assert !IsTrimmed(lead[0]);
      }
    }
  }

  /** `"client".equalsIgnoreCase(x)` accepts the upper- and mixed-case spellings and rejects `"server"`. */
  lemma ClientSpellings()
    ensures EqualsIgnoreCase("CLIENT", "client")
    ensures EqualsIgnoreCase("Client", "client")
    ensures EqualsIgnoreCase("clıent", "client")
    ensures !EqualsIgnoreCase("server", "client")
    ensures !EqualsIgnoreCase("clients", "client")
  {
    assert !CharEqualsIgnoreCase('s', 'c');
  }
}
