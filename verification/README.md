# Drag-and-drop decision logic of the file manager

This project models the core of `useDraggableEntries`, the React hook that
makes file-manager entries draggable in daedalOS. A container is either
*ordered* (a list whose sort order a drop rearranges) or *freeform* (the
desktop, where `allowMoving` lets icons sit anywhere). The model covers:

- the per-container drag state: the sticky `draggedOnce` flag, the partial
  drag position `{x, y, offsetX, offsetY}`, the drop index, whether the
  `dragover` listener is attached, and the recorded last child of the
  container. These are the fields of the class `DraggableEntries.DragTracker`.
  Its methods `DragStart`, `DragOver`, `DragEnd`, `Dragging` and
  `RecordLastChild` are the hook's handlers and its last-child effect;
- the payloads a drag-start sets: the list of joined paths serialised as
  `application/json`, and for a single file the `DownloadURL` hint
  `mime:name:href+path` (`DragPayload`). A parser for that hint, the way a
  receiver splits it at its first two colons, is its inverse;
- the drop-index rule of `onDragOver` (`DropTarget`);
- the reorder transform handed to `setSortOrder` at drag-end: filter out the
  focused names, then splice the focused list back in at the drop index with
  JavaScript's clamping (`SortOrder`, `Sequences.Splice`);
- the choice of commit at drag-end, the drag-image anchor, and the props
  returned for each entry.

Environment inputs are parameters: the focused entries, the pointer's client
and offset coordinates, the mime type that `getMimeType` found, the page
URL, the keys of the icon-position map, whether a drag image is ready, the
container's current last child, and the element under the pointer. The
`allowMoving` and `isMainContainer` flags are fixed per container.

Where the hook's documented intent and its code differ, the model follows
the code:

- drag-end detaches the `dragover` listener only for a freeform container
  with a non-empty selection (lines 59-69), not on every drag-end;
  `DragEnd` states exactly when `listening` becomes false;
- drag-end does not reset the drag position; the next freeform drag-start does;
- in an ordered container, an empty selection with a stale drop index still
  commits a reorder; `SortOrder.EmptySelectionKeepsOrder` shows that this
  reorder leaves the order unchanged;
- the inline `style` depends on `isMainContainer`, not on `allowMoving`;
- the dragged-once test (last child changed, or every focused entry has an
  icon position) decides only the anchor of the drag during which it first
  holds. Lines 156-158 then set the flag anyway for every freeform multi-file
  drag with a drag image.

## Model

| member | source | states |
|---|---|---|
| `Sequences.IndexOf` | components/system/Files/FileManager/useDraggableEntries.ts:89 | `indexOf` is -1 exactly when the element is absent; otherwise it is the first position holding it |
| `Sequences.SpliceStart` | components/system/Files/FileManager/useDraggableEntries.ts:76 | the insertion index of `splice` stays within the array: a start past the end goes to the end, and a negative start counts from the end |
| `Sequences.Splice` | components/system/Files/FileManager/useDraggableEntries.ts:76 | `splice(start, 0, ...items)` keeps the prefix before the clamped index, puts `items` there in order, then keeps the rest; the length grows by `\|items\|` |
| `Sequences.SpliceMultiset` | components/system/Files/FileManager/useDraggableEntries.ts:76 | splicing adds exactly the inserted items to the array's contents |
| `EntryPaths.JoinAll` | components/system/Files/FileManager/useDraggableEntries.ts:113 | mapping `join` over the focused list keeps its length and order, element by element |
| `EntryPaths.Join` | components/system/Files/FileManager/useDraggableEntries.ts:112-113 | a joined path starts with the container path, ends with the file name, and one `/` separates them |
| `EntryPaths.TemplateKey` | components/system/Files/FileManager/useDraggableEntries.ts:137 | the lookup key is the container path, a `/`, then the file name |
| `EntryPaths.JoinInjective` | components/system/Files/FileManager/useDraggableEntries.ts:112-113 | within one container, two file names give the same joined path only if they are equal |
| `EntryPaths.JoinAllDistinct` | components/system/Files/FileManager/useDraggableEntries.ts:113 | the mapped paths repeat none exactly when the file names repeat none |
| `EntryPaths.TemplateKeyMatchesJoin` | components/system/Files/FileManager/useDraggableEntries.ts:136-137 | the `${entryUrl}/${entryFile}` key equals the joined path iff the URL is non-empty and does not end in `/`; it differs for the root `/` |
| `DragPayload.JsonPaths` | components/system/Files/FileManager/useDraggableEntries.ts:106-115 | with at most one focused entry the payload is exactly the dragged file's path; otherwise it has one path per focused entry, in selection order |
| `DragPayload.SingleFilePayloadIgnoresSelection` | components/system/Files/FileManager/useDraggableEntries.ts:106-112 | with one focused entry other than the dragged file, the payload does not name the focused entry |
| `DragPayload.MultiFilePayloadDistinct` | components/system/Files/FileManager/useDraggableEntries.ts:113 | a multi-file payload repeats no path iff the selection repeats no name |
| `DragPayload.MimeOrDefault` | components/system/Files/FileManager/useDraggableEntries.ts:120 | the mime part is never empty: the resolved type when it is non-empty, `application/octet-stream` otherwise |
| `DragPayload.DownloadUrl` | components/system/Files/FileManager/useDraggableEntries.ts:120-122 | the hint starts with the resolved mime type and a colon and ends with the page URL followed by the joined path |
| `DragPayload.DownloadUrlAlwaysParses` | components/system/Files/FileManager/useDraggableEntries.ts:117-124 | whatever the file name holds, the hint splits into three parts at its first two colons |
| `DragPayload.ParseDownloadUrl` | components/system/Files/FileManager/useDraggableEntries.ts:118-123 | a parsed hint reassembles to the string it came from, with colon-free mime and name parts |
| `DragPayload.DownloadUrlRoundTrip` | components/system/Files/FileManager/useDraggableEntries.ts:117-124 | the hint reads back as (mime or default, file name, page URL + joined path) when neither mime nor name holds a colon |
| `DragPayload.ColonInNameSplitsHint` | components/system/Files/FileManager/useDraggableEntries.ts:120-122 | the hint is built for any name; a name with a colon (`a:b`) reads back truncated (`a`), with the rest moved into the URL part |
| `SortOrder.Filtered` | components/system/Files/FileManager/useDraggableEntries.ts:72-74 | the filtered order is no longer than the previous one and holds no focused name |
| `SortOrder.FilteredMembers` | components/system/Files/FileManager/useDraggableEntries.ts:72-74 | a name is in the filtered order iff it was in the previous order and is not focused |
| `SortOrder.Reordered` | components/system/Files/FileManager/useDraggableEntries.ts:71-78 | the new order is the filtered order with the focused list inserted, contiguous and in order, at min(dropIndex, filtered length); its length is the sum of the two |
| `SortOrder.FocusedOnlyInBlock` | components/system/Files/FileManager/useDraggableEntries.ts:76 | outside the inserted block no focused name occurs, so the dragged entries are contiguous |
| `SortOrder.OthersKeepOrder` | components/system/Files/FileManager/useDraggableEntries.ts:71-78 | the entries that were not dragged keep their relative order |
| `SortOrder.ReorderedMultiset` | components/system/Files/FileManager/useDraggableEntries.ts:71-78 | the new order holds, counted with repetitions, the filtered entries plus the focused list and nothing else |
| `SortOrder.ReorderedIsPermutation` | components/system/Files/FileManager/useDraggableEntries.ts:71-78 | for a repetition-free order and a repetition-free selection drawn from it, the new order is a permutation of the old one |
| `SortOrder.EmptySelectionKeepsOrder` | components/system/Files/FileManager/useDraggableEntries.ts:70-79 | a reorder committed with nothing focused leaves the order unchanged |
| `SortOrder.DropLastAtTwo` | components/system/Files/FileManager/useDraggableEntries.ts:71-78 | dropping `d` at index 2 of `[a, b, c, d]` gives `[a, b, d, c]` |
| `DropTarget.DropIndexAfterHover` | components/system/Files/FileManager/useDraggableEntries.ts:85-90 | the drop index is unchanged in a freeform container or off a list item; otherwise it is -1 iff the hovered file is focused (or the item is not among its siblings), and else the item's first position among its parent's children |
| `DropTarget.HoverOverFocusedClearsTarget` | components/system/Files/FileManager/useDraggableEntries.ts:87-89 | hovering a focused entry gives -1 wherever it sits |
| `DropTarget.HoverOverOtherGivesPosition` | components/system/Files/FileManager/useDraggableEntries.ts:86-89 | hovering an unfocused item gives its zero-based position among its siblings |
| `DraggableEntries.EndCommit` | components/system/Files/FileManager/useDraggableEntries.ts:59-80 | freeform commit iff `allowMoving` and a non-empty selection; otherwise reorder iff the drop index is not -1; otherwise nothing. The branches exclude each other and the freeform one wins |
| `DraggableEntries.LastChildChanged` | components/system/Files/FileManager/useDraggableEntries.ts:132-135 | the last child counts as changed only when both the recorded and the current child exist and differ |
| `DraggableEntries.EveryHasIconPosition` | components/system/Files/FileManager/useDraggableEntries.ts:136-138 | holds for an empty selection, and otherwise only when every focused entry's template key is among the icon-position keys |
| `DraggableEntries.DraggedOnceForAnchor` | components/system/Files/FileManager/useDraggableEntries.ts:129-141 | the flag seen by the anchor only goes from false to true, and only in a freeform container whose last child changed or whose focused entries all have template-keyed positions |
| `DraggableEntries.DragImageAnchor` | components/system/Files/FileManager/useDraggableEntries.ts:143-148 | anchor X is client X in the main container and offset X elsewhere; anchor Y is client Y once dragged, offset Y before |
| `DraggableEntries.StartPosition` | components/system/Files/FileManager/useDraggableEntries.ts:163-170 | a freeform drag-start keeps only the pointer offsets for a multi-file drag and the empty record otherwise; it never sets `x`/`y` |
| `DraggableEntries.DragTracker.constructor` | components/system/Files/FileManager/useDraggableEntries.ts:38-48 | a fresh container: not dragged once, empty position, drop index -1, no listener, last child as first seen |
| `DraggableEntries.DragTracker.Dragging` | components/system/Files/FileManager/useDraggableEntries.ts:49-51 | the listener overwrites `x` and `y` with the pointer and keeps the offsets |
| `DraggableEntries.DragTracker.RecordLastChild` | components/system/Files/FileManager/useDraggableEntries.ts:218-224 | the last-child marker is written only while unset; once set it never changes |
| `DraggableEntries.DragTracker.DragOver` | components/system/Files/FileManager/useDraggableEntries.ts:82-91 | the new drop index follows the hover rule; a freeform container keeps -1 |
| `DraggableEntries.DragTracker.DragEnd` | components/system/Files/FileManager/useDraggableEntries.ts:54-81 | the commit follows the branch rule; a freeform container never reorders and an ordered one never moves icons; the listener is detached exactly in the freeform branch |
| `DraggableEntries.DragTracker.DragStart` | components/system/Files/FileManager/useDraggableEntries.ts:92-175 | renaming halts and changes nothing; otherwise it focuses the file, sets the payloads, effect `move` and the anchored drag image; `draggedOnce` is monotone and becomes true exactly on a freeform multi-file drag with an image; a freeform drag resets the position and attaches the listener |
| `DraggableEntries.DragTracker.Bindings` | components/system/Files/FileManager/useDraggableEntries.ts:244-250 | every entry is draggable with handlers bound to it; the style is the stored icon position of its joined path in the main container, and absent otherwise |

## Left out

- `updateDragImage` (lines 176-215): DOM queries, asynchronous rasterisation by a lazily imported library and swallowed exceptions. The model sees only whether the drag-image element is allocated (`hasDragImage`); it is allocated before rasterisation and stays allocated when rasterisation fails.
- The debounced and the immediate drag-image effects (lines 228-242): browser timers and React effect scheduling, whose point is timing.
- `updateIconPositions` (lines 60-68) lives in `utils/functions`, which is not part of this model. A freeform drag-end yields `MoveIcons(url, position, entries)`, the arguments the model keeps; the container element, `iconPositions`, `sortOrders` and `setIconPositions` it also receives are left out.
- The session store: `setSortOrder` and `setIconPositions` are not part of this model. A reorder commit carries the focused list and the drop index, and `SortOrder.Reordered` gives the order it produces from the previous one.
- `Join`: models Node's `path.join` only for a directory path and one file name without separators, `.` or `..`. It does not normalise the path.
- `getMimeType`, `window.location.href`, `Object.keys(iconPositions)` and the `isMainContainer` DOM lookup are inputs.
- `JSON.stringify`: the JSON payload is the list of paths before serialisation.
- `haltEvent`, `focusEntry`, `setData` and `setDragImage` are recorded in the drag-start result, not performed. The case of a missing `dataTransfer` (optional chaining) is not modelled.
- `DragTracker.Dragging`, `DragTracker.DragStart`, `DragImageAnchor` and `StartPosition`: pointer client and offset coordinates (`PointerEvent`) are integers, although browsers report them as fractional numbers.
- Listener registration is a flag. The identity of the `onDragging` closure, which React re-creates on each render, is not modelled, and the container element is assumed mounted whenever a handler runs.
- `DownloadUrlRoundTrip`: promises the read-back only for mime types and file names without a colon. The hook builds the hint for any name, and `ColonInNameSplitsHint` shows how a colon in the name is misread.
