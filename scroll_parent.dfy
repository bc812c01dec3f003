/**
 * `getScrollParent` of the first release's drag helper
 * (src/draggableHelper.provider.ts): the nearest element, starting from the
 * given one and walking up through `parentElement`, whose content scrolls
 * vertically; the document's scrolling element when there is none.
 *
 * An element is given by what the search reads of it: its computed
 * `overflowY` and its scroll and client heights. The walk from an element to
 * the root is the sequence of those, the element first; the empty sequence
 * is a null element. The result is a position on that walk, or the
 * document's scrolling element.
 */
module ScrollParent {

  datatype ElementInfo = ElementInfo(overflowY: string, scrollHeight: int, clientHeight: int)

  datatype ScrollParent = ScrollingElement | Ancestor(depth: nat)

  /** The element can scroll vertically and has more content than room:
      an element whose overflow is visible or hidden never qualifies, nor
      one whose content fits; one that scrolls (`auto` or `scroll`) with
      taller content always does. */
  predicate IsScrollParent(e: ElementInfo): (r: bool)
    ensures e.overflowY == "visible" || e.overflowY == "hidden" ==> !r
    ensures e.scrollHeight <= e.clientHeight ==> !r
    ensures (e.overflowY == "auto" || e.overflowY == "scroll") && e.scrollHeight > e.clientHeight ==> r
  {
    e.overflowY != "visible" && e.overflowY != "hidden" && e.scrollHeight > e.clientHeight
  }

  /** `getScrollParent(chain[0])`, the chain running up to the root. */
  function GetScrollParent(chain: seq<ElementInfo>): (r: ScrollParent)
    ensures r.Ancestor? ==>
      && r.depth < |chain|
      && IsScrollParent(chain[r.depth])
      && forall j :: 0 <= j < r.depth ==> !IsScrollParent(chain[j])
    ensures r.ScrollingElement? ==> forall j :: 0 <= j < |chain| ==> !IsScrollParent(chain[j])
    decreases |chain|
  {
    if chain == [] then ScrollingElement
    else if IsScrollParent(chain[0]) then Ancestor(0)
    else match GetScrollParent(chain[1..])
      case ScrollingElement => ScrollingElement
      case Ancestor(d) => Ancestor(d + 1)
  }

  /** The nearest qualifying element is the only answer the walk can give:
      any position that qualifies with nothing qualifying below it is the
      result. */
  lemma NearestIsUnique(chain: seq<ElementInfo>, d: nat)
    requires d < |chain| && IsScrollParent(chain[d])
    requires forall j :: 0 <= j < d ==> !IsScrollParent(chain[j])
    ensures GetScrollParent(chain) == Ancestor(d)
  {
  }

  /** The ancestors above the nearest scrollable element are never
      looked at: changing them does not change the result. */
  lemma {:induction false} AncestorsAboveDoNotMatter(chain: seq<ElementInfo>, above: seq<ElementInfo>, d: nat)
    requires GetScrollParent(chain) == Ancestor(d)
    ensures GetScrollParent(chain[..d + 1] + above) == Ancestor(d)
    decreases |chain|
  {
    var c := chain[..d + 1] + above;
    if d > 0 {
      assert !IsScrollParent(chain[0]);
      assert GetScrollParent(chain[1..]) == Ancestor(d - 1);
      AncestorsAboveDoNotMatter(chain[1..], above, d - 1);
      assert c[1..] == chain[1..][..d] + above;
      assert c[0] == chain[0];
    } else {
      assert c[0] == chain[0];
    }
  }

  /** A null element, the document's own scrolling element. */
  lemma NullIsScrollingElement()
    ensures GetScrollParent([]) == ScrollingElement
  {
  }

  /** An element is the result for itself exactly when it qualifies. */
  lemma SelfIffQualifies(chain: seq<ElementInfo>)
    requires chain != []
    ensures GetScrollParent(chain) == Ancestor(0) <==> IsScrollParent(chain[0])
  {
  }
}
