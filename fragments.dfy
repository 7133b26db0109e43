/** Text fragments shared by every generator: the `name: Type` entries that make
    up field lists and argument lists, and the facts about string concatenation
    the generators' proofs rely on. */
module Fragments {

  datatype Option<+T> = None | Some(value: T)

  /** One entry of a type, input or argument list; it stands for the text `name: ty`. */
  datatype Arg = Arg(name: string, ty: string)

  /** The text an entry renders to. */
  function Line(a: Arg): string
  {
    a.name + ": " + a.ty
  }

  /** The text a JavaScript template literal produces for `${v}` when `v` may be `undefined`. */
  function Interpolate(v: Option<string>): string
  {
    if v.Some? then v.value else "undefined"
  }

  /** The names of a list of entries, in order. */
  function Names(args: seq<Arg>): (names: seq<string>)
    ensures |names| == |args|
    ensures forall i :: 0 <= i < |args| ==> names[i] == args[i].name
  {
    if args == [] then [] else [args[0].name] + Names(args[1..])
  }

  /** No two positions of `s` hold the same value. */
  predicate Distinct<T(==)>(s: seq<T>)
  {
    forall i, j :: 0 <= i < j < |s| ==> s[i] != s[j]
  }

  /** `k` followed by each suffix in turn. */
  function Prefixed(k: string, suffixes: seq<string>): (r: seq<string>)
    ensures |r| == |suffixes|
    ensures forall i :: 0 <= i < |r| ==> r[i] == k + suffixes[i]
  {
    if suffixes == [] then [] else [k + suffixes[0]] + Prefixed(k, suffixes[1..])
  }

  lemma PrefixOfConcat(k: string, s: string)
    ensures k <= k + s
  {
    assert (k + s)[..|k|] == k;
  }

  /** Appending to the same prefix keeps different suffixes apart. */
  lemma SuffixInjective(k: string, s1: string, s2: string)
    ensures k + s1 == k + s2 <==> s1 == s2
  {
    if k + s1 == k + s2 {
      assert s1 == (k + s1)[|k|..];
      assert s2 == (k + s2)[|k|..];
    }
  }

  /** Prepending to the same suffix keeps different prefixes apart. */
  lemma PrefixInjective(k1: string, k2: string, s: string)
    ensures k1 + s == k2 + s <==> k1 == k2
  {
    if k1 + s == k2 + s {
      assert |k1| == |k2|;
      assert k1 == (k1 + s)[..|k1|];
      assert k2 == (k2 + s)[..|k2|];
    }
  }

  /** Prefixing every suffix with the same name keeps a list of suffixes duplicate-free, and no more. */
  lemma {:induction false} PrefixedDistinct(k: string, suffixes: seq<string>)
    ensures Distinct(Prefixed(k, suffixes)) <==> Distinct(suffixes)
  {
    var r := Prefixed(k, suffixes);
    forall i, j | 0 <= i < j < |suffixes|
      ensures r[i] == r[j] <==> suffixes[i] == suffixes[j]
    {
      SuffixInjective(k, suffixes[i], suffixes[j]);
    }
  }
}
