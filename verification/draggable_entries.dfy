/**
 * The per-container drag state of the `useDraggableEntries` hook and its
 * handlers. One `DragTracker` stands for one mounted container: its fields
 * are the hook's refs (`draggedOnceRef`, `dragPositionRef`,
 * `lastfileManagerChildRef`), the `dropIndex` state and whether the
 * container's `dragover` listener is attached. What the handlers read from
 * the browser, the selection and the session arrives as parameters.
 */
module DraggableEntries {
  import opened Wrappers
  import opened Sequences
  import opened EntryPaths
  import opened DragPayload
  import opened SortOrder
  import opened DropTarget

  /** `{ x, y, offsetX, offsetY }` with every field optional. */
  datatype DragPosition = DragPosition(x: Option<int>, y: Option<int>,
                                       offsetX: Option<int>, offsetY: Option<int>)

  /** The empty record `Object.create(null)`. */
  const NoPosition := DragPosition(None, None, None, None)

  /** The pointer fields of a drag event the handlers read. */
  datatype PointerEvent = PointerEvent(clientX: int, clientY: int, offsetX: int, offsetY: int)

  /** The point of the drag image that sits under the pointer. */
  datatype Anchor = Anchor(x: int, y: int)

  /** An entry's inline position taken from the session's icon positions. */
  datatype Style = Style(top: int, left: int)

  /** What drag-start reads besides the event and the container's own state. */
  datatype StartEnvironment = StartEnvironment(
    mime: Option<string>,                 // getMimeType(file)
    href: string,                         // window.location.href
    iconPositionKeys: set<string>,        // Object.keys(iconPositions)
    hasDragImage: bool,                   // dragImageRef.current is set
    currentLastChild: Option<ElementId>)  // the container's lastElementChild now

  /** What drag-start does to the gesture itself. */
  datatype DragStartResult =
    | Halted
    | Started(focus: string, json: seq<string>, downloadUrl: Option<string>,
              dragImage: Option<Anchor>, effectAllowed: string)

  /** What drag-end hands to the session store. */
  datatype Commit =
    | NoCommit
    | MoveIcons(url: string, position: DragPosition, entries: seq<string>)
    | Reorder(url: string, focused: seq<string>, dropIndex: int)

  /**
   * The commit chosen at drag-end: icon positions for a freeform container
   * with a selection, otherwise a reorder when a drop index is set, otherwise
   * nothing. The first branch takes precedence.
   */
  function EndCommit(allowMoving: bool, entryUrl: string, focused: seq<string>,
                     position: DragPosition, dropIndex: int): (c: Commit)
    ensures c.MoveIcons? <==> allowMoving && |focused| > 0
    ensures c.Reorder? <==> !(allowMoving && |focused| > 0) && dropIndex != -1
    ensures c.NoCommit? <==> !(allowMoving && |focused| > 0) && dropIndex == -1
    ensures c.MoveIcons? ==> c.url == entryUrl && c.position == position && c.entries == focused
    ensures c.Reorder? ==> c.url == entryUrl && c.focused == focused && c.dropIndex == dropIndex
  {
    if allowMoving && |focused| > 0 then MoveIcons(entryUrl, position, focused)
    else if dropIndex != -1 then Reorder(entryUrl, focused, dropIndex)
    else NoCommit
  }

  /** The container's last child differs from the one recorded earlier. */
  predicate LastChildChanged(recorded: Option<ElementId>, current: Option<ElementId>)
    ensures LastChildChanged(recorded, current) ==> recorded != current
    ensures recorded.None? || current.None? ==> !LastChildChanged(recorded, current)
  {
    recorded.Some? && current.Some? && current.value != recorded.value
  }

  /** Every focused entry has a recorded icon position under its template key. */
  predicate EveryHasIconPosition(entryUrl: string, focused: seq<string>, keys: set<string>)
    ensures focused == [] ==> EveryHasIconPosition(entryUrl, focused, keys)
    ensures EveryHasIconPosition(entryUrl, focused, keys) ==>
      forall i :: 0 <= i < |focused| ==> TemplateKey(entryUrl, focused[i]) in keys
  {
    forall e :: e in focused ==> TemplateKey(entryUrl, e) in keys
  }

  /**
   * The dragged-once flag as the anchor sees it during a multi-file drag
   * with a drag image: already set, or newly set in a freeform container
   * whose last child changed or whose focused entries all have positions.
   */
  function DraggedOnceForAnchor(allowMoving: bool, draggedOnce: bool, recorded: Option<ElementId>,
                                current: Option<ElementId>, entryUrl: string,
                                focused: seq<string>, keys: set<string>): (b: bool)
    ensures draggedOnce ==> b
    ensures b && !draggedOnce <==>
      !draggedOnce && allowMoving
      && (LastChildChanged(recorded, current) || EveryHasIconPosition(entryUrl, focused, keys))
  {
    draggedOnce
    || (allowMoving && (LastChildChanged(recorded, current) || EveryHasIconPosition(entryUrl, focused, keys)))
  }

  /**
   * The drag-image anchor: client X in the main container and offset X
   * elsewhere; client Y once the container has been dragged once, offset Y
   * before.
   */
  function DragImageAnchor(isMainContainer: bool, draggedOnce: bool, ev: PointerEvent): (a: Anchor)
    ensures isMainContainer ==> a.x == ev.clientX
    ensures !isMainContainer ==> a.x == ev.offsetX
    ensures draggedOnce ==> a.y == ev.clientY
    ensures !draggedOnce ==> a.y == ev.offsetY
  {
    Anchor(if isMainContainer then ev.clientX else ev.offsetX,
           if draggedOnce then ev.clientY else ev.offsetY)
  }

  /**
   * The drag position a freeform drag-start resets to: only the pointer's
   * offsets for a multi-file drag, the empty record otherwise.
   */
  function StartPosition(focused: seq<string>, ev: PointerEvent): (p: DragPosition)
    ensures p.x.None? && p.y.None?
    ensures |focused| > 1 ==> p.offsetX == Some(ev.offsetX) && p.offsetY == Some(ev.offsetY)
    ensures |focused| <= 1 ==> p == NoPosition
  {
    if |focused| > 1 then DragPosition(None, None, Some(ev.offsetX), Some(ev.offsetY))
    else NoPosition
  }

  /** The bound handlers of one entry, by the arguments their closures capture. */
  datatype Handler =
    | OnDragEnd(entryUrl: string)
    | OnDragOver(file: string)
    | OnDragStart(entryUrl: string, file: string, renaming: bool)

  /** The props returned for one entry. */
  datatype EntryProps = EntryProps(draggable: bool, onDragEnd: Handler, onDragOver: Handler,
                                   onDragStart: Handler, style: Option<Style>)

  class DragTracker {
    /** Whether the container lets entries be placed freely (`allowMoving`). */
    const allowMoving: bool
    /** Whether the container's parent element is `MAIN`. */
    const isMainContainer: bool

    var draggedOnce: bool
    var dragPosition: DragPosition
    var dropIndex: int
    /** Whether `onDragging` is registered as the container's `dragover` listener. */
    var listening: bool
    /** The container's last child as last recorded. */
    var lastChild: Option<ElementId>

    /**
     * A freeform container never records a drop index; an ordered one never
     * attaches the listener, never sets a drag position and is never marked
     * dragged once. A drop index is -1 or a child position.
     */
    ghost predicate Valid()
      reads this
    {
      dropIndex >= -1
      && (allowMoving ==> dropIndex == -1)
      && (!allowMoving ==> !listening && dragPosition == NoPosition && !draggedOnce)
    }

    /** The hook's first render. */
    constructor (allowMoving: bool, isMainContainer: bool, initialLastChild: Option<ElementId>)
      ensures Valid()
      ensures this.allowMoving == allowMoving && this.isMainContainer == isMainContainer
      ensures !draggedOnce && dragPosition == NoPosition && dropIndex == -1 && !listening
      ensures lastChild == initialLastChild
    {
      this.allowMoving := allowMoving;
      this.isMainContainer := isMainContainer;
      draggedOnce := false;
      dragPosition := NoPosition;
      dropIndex := -1;
      listening := false;
      lastChild := initialLastChild;
    }

    /** The `dragover` listener: records the live pointer, keeping the offsets. */
    method Dragging(clientX: int, clientY: int)
      requires Valid() && listening
      modifies this`dragPosition
      ensures Valid()
      ensures dragPosition.x == Some(clientX) && dragPosition.y == Some(clientY)
      ensures dragPosition.offsetX == old(dragPosition.offsetX)
      ensures dragPosition.offsetY == old(dragPosition.offsetY)
    {
      dragPosition := dragPosition.(x := Some(clientX), y := Some(clientY));
    }

    /** The effect that records the container's last child once, while none is recorded. */
    method RecordLastChild(current: Option<ElementId>)
      requires Valid()
      modifies this`lastChild
      ensures Valid()
      ensures old(lastChild).Some? ==> lastChild == old(lastChild)
      ensures old(lastChild).None? ==> lastChild == current
    {
      if current.Some? && lastChild.None? {
        lastChild := current;
      }
    }

    /** `onDragOver(file)`. */
    method DragOver(file: string, focused: seq<string>, target: HoverTarget)
      requires Valid()
      modifies this`dropIndex
      ensures Valid()
      ensures dropIndex == DropIndexAfterHover(allowMoving, file, focused, target, old(dropIndex))
    {
      if !allowMoving && target.ListItem? {
        var dragOverFocused := file in focused;
        dropIndex := if dragOverFocused then -1 else IndexOf(target.siblings, target.item);
      }
    }

    /**
     * `onDragEnd(entryUrl)`: chooses the commit and, in the freeform branch
     * only, detaches the `dragover` listener. The drag position is left as it is.
     */
    method DragEnd(entryUrl: string, focused: seq<string>) returns (commit: Commit)
      requires Valid()
      modifies this`listening
      ensures Valid()
      ensures commit == EndCommit(allowMoving, entryUrl, focused, dragPosition, dropIndex)
      ensures allowMoving ==> !commit.Reorder?
      ensures !allowMoving ==> !commit.MoveIcons?
      ensures listening == (old(listening) && !(allowMoving && |focused| > 0))
    {
      if allowMoving && |focused| > 0 {
        commit := MoveIcons(entryUrl, dragPosition, focused);
        listening := false;
      } else if dropIndex != -1 {
        commit := Reorder(entryUrl, focused, dropIndex);
      } else {
        commit := NoCommit;
      }
    }

    /**
     * `onDragStart(entryUrl, file, renaming)`. A renaming entry only halts
     * the gesture. Otherwise the drag focuses `file`, sets the payloads and
     * the drop effect, sets the drag image for a multi-file drag when one is
     * ready, and in a freeform container resets the drag position and
     * attaches the listener.
     */
    method DragStart(entryUrl: string, file: string, renaming: bool, focused: seq<string>,
                     ev: PointerEvent, env: StartEnvironment) returns (out: DragStartResult)
      requires Valid()
      modifies this`draggedOnce, this`dragPosition, this`listening
      ensures Valid()
      ensures renaming ==> out == Halted && unchanged(this)
      ensures !renaming ==> out.Started? && out.focus == file && out.effectAllowed == "move"
      ensures !renaming ==> out.json == JsonPaths(entryUrl, file, focused)
      ensures !renaming ==>
        out.downloadUrl ==
          if |focused| <= 1 then Some(DownloadUrl(env.mime, file, env.href, entryUrl)) else None
      ensures !renaming ==>
        out.dragImage ==
          if |focused| > 1 && env.hasDragImage
          then Some(DragImageAnchor(isMainContainer,
                                    DraggedOnceForAnchor(allowMoving, old(draggedOnce), lastChild,
                                                         env.currentLastChild, entryUrl, focused,
                                                         env.iconPositionKeys), ev))
          else None
      ensures draggedOnce ==
        (old(draggedOnce) || (!renaming && |focused| > 1 && env.hasDragImage && allowMoving))
      ensures dragPosition == if !renaming && allowMoving then StartPosition(focused, ev) else old(dragPosition)
      ensures listening == (old(listening) || (!renaming && allowMoving))
    {
      if renaming {
        return Halted;
      }
      var singleFile := |focused| <= 1;
      var json := JsonPaths(entryUrl, file, focused);
      var downloadUrl := if singleFile then Some(DownloadUrl(env.mime, file, env.href, entryUrl)) else None;
      var dragImage: Option<Anchor> := None;
      if !singleFile && env.hasDragImage {
        if allowMoving && !draggedOnce
          && (LastChildChanged(lastChild, env.currentLastChild)
              || EveryHasIconPosition(entryUrl, focused, env.iconPositionKeys))
        {
          draggedOnce := true;
        }
        dragImage := Some(DragImageAnchor(isMainContainer, draggedOnce, ev));
        if allowMoving && !draggedOnce {
          draggedOnce := true;
        }
      }
      if allowMoving {
        dragPosition := StartPosition(focused, ev);
        listening := true;
      }
      out := Started(file, json, downloadUrl, dragImage, "move");
    }

    /**
     * The props returned for an entry: always draggable, handlers bound to the
     * entry, and in the main container the icon position stored under the
     * entry's joined path, if any.
     */
    function Bindings(entryUrl: string, file: string, renaming: bool,
                      iconPositions: map<string, Style>): (p: EntryProps)
      ensures p.draggable
      ensures p.onDragEnd == OnDragEnd(entryUrl) && p.onDragOver == OnDragOver(file)
      ensures p.onDragStart == OnDragStart(entryUrl, file, renaming)
      ensures p.style.Some? <==> isMainContainer && Join(entryUrl, file) in iconPositions
      ensures p.style.Some? ==> p.style.value == iconPositions[Join(entryUrl, file)]
    {
      var key := Join(entryUrl, file);
      EntryProps(true, OnDragEnd(entryUrl), OnDragOver(file), OnDragStart(entryUrl, file, renaming),
                 if isMainContainer && key in iconPositions then Some(iconPositions[key]) else None)
    }
  }
}
