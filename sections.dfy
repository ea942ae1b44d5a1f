/**
 * The fixed list of page parts the scroll container pages through, and the
 * lookup that resolves a navigation id against the navigation items (the
 * parts without the cover).
 */
module Sections {

  datatype Option<T> = None | Some(value: T)

  /** A narrative part of the page: a unique id and a display label (the source field `label`; `label` is a Dafny keyword). */
  datatype Part = Part(id: string, caption: string)

  /**
   * The registered parts, in navigation order (the `parts` field, never
   * reassigned): five parts with distinct ids, the cover first and without
   * a label.
   */
  function Parts(): (r: seq<Part>)
    ensures |r| == 5 && UniqueIds(r)
    ensures r[0].id == "cover" && r[0].caption == ""
  {
    [
      Part("cover", ""),
      Part("intro", "Intro"),
      Part("preface", "Preface"),
      Part("events", "Events"),
      Part("credits", "Credits")
    ]
  }

  /** The navigation items (the `navItems` field): every part except the cover, in order. */
  function NavItems(): (r: seq<Part>)
    ensures |r| == |Parts()| - 1
    ensures forall k :: 0 <= k < |r| ==> r[k] == Parts()[k + 1]
    ensures forall k :: 0 <= k < |r| ==> r[k].id != Parts()[0].id
  {
    Parts()[1..]
  }

  /** Index of the last part. */
  const LastPart: int := |Parts()| - 1

  /** `id` is the id of some registered part. */
  predicate IsPartId(id: string) {
    exists k :: 0 <= k < |Parts()| && Parts()[k].id == id
  }

  /** `id` is the id of some navigation item. */
  predicate IsNavId(id: string) {
    exists k :: 1 <= k < |Parts()| && Parts()[k].id == id
  }

  /** No two entries of `items` share an id. */
  predicate UniqueIds(items: seq<Part>) {
    forall i, j :: 0 <= i < j < |items| ==> items[i].id != items[j].id
  }

  /**
   * The first position in `items` whose id is `id`, or None when there is
   * none (the `findIndex` lookup, with -1 as None).
   */
  function IndexOfId(items: seq<Part>, id: string): (r: Option<nat>)
    ensures r.Some? ==> r.value < |items| && items[r.value].id == id
    ensures r.Some? ==> forall j :: 0 <= j < r.value ==> items[j].id != id
    ensures r.None? <==> forall j :: 0 <= j < |items| ==> items[j].id != id
  {
    if items == [] then None
    else if items[0].id == id then Some(0)
    else match IndexOfId(items[1..], id)
      case None => None
      case Some(k) => Some(k + 1)
  }

  /**
   * The part index `onNavigate` resolves `id` to: one past its position in
   * the navigation items. It is never the cover, it names the part whose id
   * is `id`, and it exists exactly for the navigation ids.
   */
  function NavTarget(id: string): (r: Option<nat>)
    ensures r.Some? ==> 1 <= r.value < |Parts()| && Parts()[r.value].id == id
    ensures r.Some? <==> IsNavId(id)
  {
    match IndexOfId(NavItems(), id)
    case None =>
      assert forall k :: 1 <= k < |Parts()| ==> Parts()[k].id == NavItems()[k - 1].id;
      None
    case Some(k) => Some(k + 1)
  }

  /** Whenever a navigation id resolves, the part it resolves to is the only part with that id. */
  lemma NavTargetUnique(id: string, c: int)
    requires 0 <= c < |Parts()| && Parts()[c].id == id
    requires NavTarget(id).Some?
    ensures NavTarget(id).value == c
  {
  }
}
