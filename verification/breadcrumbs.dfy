/** The breadcrumb path: the entries from the menu root to the current position,
    with the three ways the component changes it — push on a menu click,
    truncate on a breadcrumb click, pop when a choice is cancelled. */
module Breadcrumbs {

  datatype Crumb = Crumb(id: string, caption: string)

  /** Some entry of the path carries this id. */
  predicate HasId(path: seq<Crumb>, id: string)
  {
    exists i :: 0 <= i < |path| && path[i].id == id
  }

  /** `path.findIndex(p => p.id === id)`: the position of the first entry with
      this id, or -1 when no entry has it. */
  function FindIndex(path: seq<Crumb>, id: string): (r: int)
    ensures -1 <= r < |path|
    ensures r >= 0 ==> path[r].id == id
    ensures forall j :: 0 <= j < |path| && (r < 0 || j < r) ==> path[j].id != id
  {
    if |path| == 0 then -1
    else if path[0].id == id then 0
    else
      var k := FindIndex(path[1..], id);
      if k < 0 then -1 else k + 1
  }

  /** `path.slice(0, path.findIndex(p => p.id === id) + 1)`: the prefix up to and
      including the first entry with this id; empty when no entry has it. */
  function TruncateAt(path: seq<Crumb>, id: string): (r: seq<Crumb>)
    ensures r <= path
    ensures r == [] <==> !HasId(path, id)
    ensures |r| > 0 ==> r[|r| - 1].id == id
    ensures forall j :: 0 <= j < |r| - 1 ==> r[j].id != id
  {
    var k := FindIndex(path, id);
    path[..k + 1]
  }

  /** `path.pop()`: drops the last entry; an empty path stays empty. */
  function Pop(path: seq<Crumb>): (r: seq<Crumb>)
    ensures |path| > 0 ==> r + [path[|path| - 1]] == path
    ensures |path| == 0 ==> r == []
  {
    if |path| == 0 then [] else path[..|path| - 1]
  }

  /** A pop undoes a push. */
  lemma PopAfterPush(path: seq<Crumb>, c: Crumb)
    ensures Pop(path + [c]) == path
  {
  }

  /** Truncating twice at the same id is the same as truncating once. */
  lemma TruncateIdempotent(path: seq<Crumb>, id: string)
    ensures TruncateAt(TruncateAt(path, id), id) == TruncateAt(path, id)
  {
  }

  /** Truncating at the id of an entry just pushed, when no earlier entry has
      that id, keeps the whole path including the new entry. */
  lemma TruncateAtPushed(path: seq<Crumb>, c: Crumb)
    requires !HasId(path, c.id)
    ensures TruncateAt(path + [c], c.id) == path + [c]
  {
    var p := path + [c];
    forall j | 0 <= j < |path|
      ensures p[j].id != c.id
    {
      assert p[j] == path[j];
    }
    assert p[|path|] == c;
  }
}
