/**
 * The drop-index rule of `onDragOver`: which insertion point a list
 * container records while an entry is dragged over one of its items.
 */
module DropTarget {
  import opened Sequences

  /** Identity of a DOM element (two elements are the same node iff equal). */
  type ElementId = nat

  /**
   * The element under the pointer: a list item together with the children of
   * its parent element (empty when it has no parent), or anything else.
   */
  datatype HoverTarget =
    | OtherElement
    | ListItem(item: ElementId, siblings: seq<ElementId>)

  /**
   * The drop index after a drag-over of `file`'s element: unchanged in a
   * freeform container or off a list item; -1 over a focused entry; otherwise
   * the item's position among its parent's children.
   */
  function DropIndexAfterHover(allowMoving: bool, file: string, focused: seq<string>,
                               target: HoverTarget, dropIndex: int): (d: int)
    ensures allowMoving || target.OtherElement? ==> d == dropIndex
    ensures !allowMoving && target.ListItem? ==>
      (d == -1 <==> file in focused || target.item !in target.siblings)
    ensures !allowMoving && target.ListItem? && d != -1 ==>
      0 <= d < |target.siblings| && target.siblings[d] == target.item
      && target.item !in target.siblings[..d]
  {
    if !allowMoving && target.ListItem? then
      if file in focused then -1 else IndexOf(target.siblings, target.item)
    else dropIndex
  }

  /**
   * Hovering a focused entry never yields a reorder target, wherever the
   * entry sits among its siblings.
   */
  lemma HoverOverFocusedClearsTarget(file: string, focused: seq<string>, item: ElementId,
                                     siblings: seq<ElementId>, dropIndex: int)
    requires file in focused
    ensures DropIndexAfterHover(false, file, focused, ListItem(item, siblings), dropIndex) == -1
  {
  }

  /**
   * Hovering an unfocused list item yields its zero-based position among
   * its siblings (children of one parent are distinct nodes).
   */
  lemma HoverOverOtherGivesPosition(file: string, focused: seq<string>, siblings: seq<ElementId>,
                                    i: nat, dropIndex: int)
    requires file !in focused
    requires Distinct(siblings) && i < |siblings|
    ensures DropIndexAfterHover(false, file, focused, ListItem(siblings[i], siblings), dropIndex) == i
  {
  }
}
