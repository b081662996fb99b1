/** Small helpers shared by the whole model: an optional value (a Gradle
    provider that may have no value) and the ASCII string functions the plugin
    uses to derive names (Java's toLowerCase on ASCII enum names, and the
    capitalize, uncapitalize and equalsIgnoreCase of Apache Commons / Java). */
module Common {

  datatype Option<+T> = None | Some(value: T)

  /** The list holding the value of `o`, if it has one: what `addLater` of a
      provider contributes to a dependency list. */
  function ToSeq<T>(o: Option<T>): (r: seq<T>)
    ensures |r| <= 1
    ensures r == [] <==> o.None?
    ensures o.Some? ==> r[0] == o.value
  {
    match o
    case None => []
    case Some(v) => [v]
  }

  /** `Provider.map`: a value exactly when the source has one. */
  function Map<A, B>(o: Option<A>, f: A -> B): (r: Option<B>)
    ensures r.Some? <==> o.Some?
    ensures r.Some? ==> r.value == f(o.value)
  {
    match o
    case None => None
    case Some(a) => Some(f(a))
  }

  /** `Provider.zip`: a value exactly when both sources have one. */
  function Zip<A, B, C>(a: Option<A>, b: Option<B>, f: (A, B) -> C): (r: Option<C>)
    ensures r.Some? <==> a.Some? && b.Some?
    ensures r.Some? ==> r.value == f(a.value, b.value)
  {
    if a.Some? && b.Some? then Some(f(a.value, b.value)) else None
  }

  predicate IsUpper(c: char) { 'A' <= c <= 'Z' }
  predicate IsLower(c: char) { 'a' <= c <= 'z' }

  function LowerChar(c: char): (r: char)
    ensures !IsUpper(r)
    ensures IsUpper(c) ==> r as int == c as int + 32
    ensures !IsUpper(c) ==> r == c
  {
    if IsUpper(c) then (c as int + 32) as char else c
  }

  function UpperChar(c: char): (r: char)
    ensures !IsLower(r)
    ensures IsLower(c) ==> r as int == c as int - 32
    ensures !IsLower(c) ==> r == c
  {
    if IsLower(c) then (c as int - 32) as char else c
  }

  /** `String.toLowerCase` restricted to ASCII letters. */
  function ToLower(s: string): (r: string)
    ensures |r| == |s|
    ensures forall k :: 0 <= k < |s| ==> r[k] == LowerChar(s[k])
  {
    seq(|s|, k requires 0 <= k < |s| => LowerChar(s[k]))
  }

  /** `StringUtils.capitalize`: the first character upper-cased, the rest kept. */
  function Capitalize(s: string): (r: string)
    ensures |r| == |s|
    ensures |s| > 0 ==> r[0] == UpperChar(s[0]) && r[1..] == s[1..]
    ensures s == [] ==> r == []
  {
    if s == [] then [] else [UpperChar(s[0])] + s[1..]
  }

  /** `StringUtils.uncapitalize`: the first character lower-cased, the rest kept. */
  function Uncapitalize(s: string): (r: string)
    ensures |r| == |s|
    ensures |s| > 0 ==> r[0] == LowerChar(s[0]) && r[1..] == s[1..]
    ensures s == [] ==> r == []
  {
    if s == [] then [] else [LowerChar(s[0])] + s[1..]
  }

  /** `String.equalsIgnoreCase` on ASCII text. */
  predicate EqualsIgnoreCase(a: string, b: string)
  {
    |a| == |b| && forall k :: 0 <= k < |a| ==> LowerChar(a[k]) == LowerChar(b[k])
  }

  /** Two names with a common prefix and different suffixes of equal length differ. */
  lemma SuffixesDiffer(prefix: string, s: string, t: string)
    requires s != t
    ensures prefix + s != prefix + t
  {
    assert (prefix + s)[|prefix|..] == s;
    assert (prefix + t)[|prefix|..] == t;
  }

  /** Two strings that differ at one position differ. */
  lemma DifferAt(s: string, t: string, k: nat)
    requires k < |s| && k < |t| && s[k] != t[k]
    ensures s != t
  {
  }

  /** Lower-casing or uncapitalizing a lower-cased string changes nothing. */
  lemma LowerStable(s: string)
    ensures ToLower(ToLower(s)) == ToLower(s)
    ensures Uncapitalize(ToLower(s)) == ToLower(s)
  {
    var t := ToLower(s);
    assert forall k :: 0 <= k < |t| ==> ToLower(t)[k] == t[k];
    if |t| > 0 {
      assert Uncapitalize(t) == [t[0]] + t[1..];
    }
  }
}
