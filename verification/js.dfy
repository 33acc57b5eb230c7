/** JavaScript values and the few built-in operations the components rely on:
    truthiness, `arr[0]` on a possibly empty array, and `str.split(sep)[0]`. */
module Js {

  /** The values a loosely typed component field can hold. */
  datatype Val = Undefined | Null | Bool(b: bool) | Str(s: string)

  datatype Option<+T> = None | Some(value: T)

  /** JavaScript truthiness: `undefined`, `null`, `false` and `""` are falsy. */
  predicate Truthy(v: Val)
  {
    match v
    case Undefined => false
    case Null => false
    case Bool(b) => b
    case Str(s) => s != ""
  }

  /** `arr[0]`: the first element, or `undefined` for an empty array. */
  function Head(s: seq<Val>): (r: Val)
    ensures |s| > 0 ==> r == s[0]
    ensures |s| == 0 ==> r == Undefined
  {
    if |s| > 0 then s[0] else Undefined
  }

  /** The separator `sep` starts at position `i` of `s`. */
  predicate OccursAt(s: string, sep: string, i: int)
  {
    0 <= i && i + |sep| <= |s| && s[i..i + |sep|] == sep
  }

  /** The first position at or after `i` where `sep` starts, or `|s|` if there is none. */
  function IndexOfFrom(s: string, sep: string, i: nat): (k: nat)
    requires |sep| > 0
    requires i <= |s|
    ensures i <= k <= |s|
    ensures forall j :: i <= j < k ==> !OccursAt(s, sep, j)
    ensures k < |s| ==> OccursAt(s, sep, k)
    decreases |s| - i
  {
    if i + |sep| > |s| then |s|
    else if s[i..i + |sep|] == sep then i
    else IndexOfFrom(s, sep, i + 1)
  }

  /** `s.split(sep)[0]`: the part of `s` before the first occurrence of `sep`,
      or all of `s` when `sep` does not occur. */
  function SplitHead(s: string, sep: string): (head: string)
    requires |sep| > 0
    ensures head <= s
    ensures forall j :: 0 <= j < |head| ==> !OccursAt(s, sep, j)
    ensures |head| < |s| ==> OccursAt(s, sep, |head|)
  {
    s[..IndexOfFrom(s, sep, 0)]
  }

  /** Splitting `name + [c] + rest` on the one-character separator `c`
      gives back `name` when `c` does not occur in `name`. */
  lemma SplitHeadOfJoin(name: string, c: char, rest: string)
    requires c !in name
    ensures SplitHead(name + [c] + rest, [c]) == name
  {
    var s := name + [c] + rest;
    var head := SplitHead(s, [c]);
    assert OccursAt(s, [c], |name|) by {
      assert s[|name|..|name| + 1] == [c];
    }
    forall j | 0 <= j < |name|
      ensures !OccursAt(s, [c], j)
    {
      assert s[j..j + 1] == [name[j]];
    }
    assert |head| == |name|;
    assert head == s[..|name|];
  }
}
