/** The FAQ accordion's `openIndex` state and its `toggleFAQ` handler. */
module Faq {

  /** `openIndex`: `null` when every item is closed, otherwise the open item's index. */
  datatype OpenIndex = NoneOpen | Open(index: nat)

  /** Item `k` is rendered open (`openIndex === k`). */
  predicate IsOpen(openIndex: OpenIndex, k: nat)
  {
    openIndex == Open(k)
  }

  /** The items rendered open. */
  function OpenItems(openIndex: OpenIndex): (r: set<nat>)
    ensures forall k :: k in r <==> IsOpen(openIndex, k)
  {
    if openIndex.Open? then {openIndex.index} else {}
  }

  /** `toggleFAQ(index)`: `openIndex === index ? null : index`. After the click,
      exactly the clicked item is open if it was closed, and nothing is open if it was open. */
  function ToggleFaq(openIndex: OpenIndex, index: nat): (r: OpenIndex)
    ensures forall k :: IsOpen(r, k) <==> k == index && !IsOpen(openIndex, index)
  {
    if openIndex == Open(index) then NoneOpen else Open(index)
  }

  /** At most one item is open in every state: `openIndex` has room for a single
      index, so the accordion can never show two answers at once. */
  lemma AtMostOneOpen(openIndex: OpenIndex)
    ensures |OpenItems(openIndex)| <= 1
  {
  }

  /** Clicking an item twice restores the state only if that item or nothing was
      open; if another item was open, the first click closed it. */
  lemma ToggleTwice(openIndex: OpenIndex, index: nat)
    ensures ToggleFaq(ToggleFaq(openIndex, index), index)
            == if openIndex.Open? && openIndex.index != index then NoneOpen else openIndex
  {
  }

  /** The state after a run of clicks. */
  function Clicks(openIndex: OpenIndex, clicks: seq<nat>): OpenIndex
    decreases |clicks|
  {
    if clicks == [] then openIndex else Clicks(ToggleFaq(openIndex, clicks[0]), clicks[1..])
  }

  /** After a non-empty run of clicks the open item, if any, is the last one clicked. */
  lemma {:induction false} ClicksOpenLast(openIndex: OpenIndex, clicks: seq<nat>)
    requires clicks != []
    ensures forall k :: IsOpen(Clicks(openIndex, clicks), k) ==> k == clicks[|clicks| - 1]
    decreases |clicks|
  {
    if |clicks| > 1 {
      ClicksOpenLast(ToggleFaq(openIndex, clicks[0]), clicks[1..]);
    }
  }
}
