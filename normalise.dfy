/** The user and channel rows: `data.map(x => ({...x, workspaceId, slackId: x.id, id: undefined}))`. */
module Normalise {
  import opened Wrappers
  import opened Json

  /** The three keys the normalisation writes over the copied properties. */
  const WorkspaceIdKey := "workspaceId"
  const SlackIdKey := "slackId"
  const IdKey := "id"

  /** One element of `usersData` or `channelsData` as a row for workspace `ws`.
      Reading `x.id` on `null` throws, hence the precondition; callers model that throw. */
  function NormaliseRow(x: Value, ws: nat): (row: Row)
    requires !Nullish(x)
    ensures row.Keys == Spread(x).Keys + {WorkspaceIdKey, SlackIdKey, IdKey}
    ensures row[WorkspaceIdKey] == NumOf(ws)
    ensures row[SlackIdKey] == Prop(x, IdKey)
    ensures row[IdKey] == Undefined
    ensures forall k :: k in Spread(x) && k !in {WorkspaceIdKey, SlackIdKey, IdKey} ==> row[k] == Spread(x)[k]
  {
    Spread(x)[WorkspaceIdKey := NumOf(ws)][SlackIdKey := Prop(x, IdKey)][IdKey := Undefined]
  }

  /** The `map` over the element list; `None` when some element is nullish. */
  function NormaliseItems(items: seq<Value>, ws: nat): (r: Option<seq<Row>>)
    ensures r.Some? <==> forall i :: 0 <= i < |items| ==> !Nullish(items[i])
    ensures r.Some? ==> |r.value| == |items|
    ensures r.Some? ==> forall i :: 0 <= i < |items| ==> r.value[i] == NormaliseRow(items[i], ws)
  {
    if items == [] then Some([])
    else if Nullish(items[0]) then None
    else match NormaliseItems(items[1..], ws)
      case None => None
      case Some(rest) => Some([NormaliseRow(items[0], ws)] + rest)
  }

  /** `data.map(...)` on a parsed file: `None` (a TypeError) unless `data` is
      an array without `null` elements; otherwise one row per element, in order. */
  function NormaliseAll(data: Value, ws: nat): (r: Option<seq<Row>>)
    ensures r.Some? <==> data.Arr? && forall i :: 0 <= i < |data.items| ==> !Nullish(data.items[i])
    ensures r.Some? ==> |r.value| == |data.items|
    ensures r.Some? ==> forall i :: 0 <= i < |data.items| ==> r.value[i] == NormaliseRow(data.items[i], ws)
  {
    if data.Arr? then NormaliseItems(data.items, ws) else None
  }
}
