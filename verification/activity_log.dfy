/**
 * The audit trail: the payloads `ActivityLogger` builds for creations,
 * updates, deletions and order transitions, and the human-readable text
 * `ActivityLog::getFormattedDescriptionAttribute` derives from a stored row.
 * The acting user (`Auth::user()`) is a parameter; the request IP is not modelled.
 */
module ActivityLog {
  import opened Wrappers
  import opened Text
  import opened Schema

  /** A row of `activity_logs`. */
  datatype LogEntry = LogEntry(
    tenantId: Id, userId: Id, modelType: string, modelId: Id, action: string,
    oldValues: Option<Attrs>, newValues: Option<Attrs>, description: Option<string>)

  const NoUserMessage: string := "Cannot log activity without authenticated user"

  /**
   * `ActivityLogger::log`: without an authenticated user it throws; otherwise
   * it records one row stamped with the user's tenant and id.
   */
  function Log(user: Option<User>, modelType: string, modelId: Id, action: string,
               oldValues: Option<Attrs>, newValues: Option<Attrs>, description: Option<string>): (r: Result<LogEntry, string>)
    ensures r.Err? <==> user.None?
    ensures r.Err? ==> r.error == NoUserMessage
    ensures r.Ok? ==> r.value.tenantId == user.value.tenantId && r.value.userId == user.value.id
    ensures r.Ok? ==> r.value.modelType == modelType && r.value.modelId == modelId && r.value.action == action
    ensures r.Ok? ==> r.value.oldValues == oldValues && r.value.newValues == newValues && r.value.description == description
  {
    if user.None? then Err(NoUserMessage)
    else Ok(LogEntry(user.value.tenantId, user.value.id, modelType, modelId, action, oldValues, newValues, description))
  }

  /** `logCreated`: no old values, every attribute as a new value. */
  function LogCreated(user: Option<User>, modelType: string, modelId: Id, attributes: Attrs, description: Option<string>): Result<LogEntry, string> {
    Log(user, modelType, modelId, "created", None, Some(attributes), description)
  }

  /** `logDeleted`: every attribute as an old value, no new values. */
  function LogDeleted(user: Option<User>, modelType: string, modelId: Id, attributes: Attrs, description: Option<string>): Result<LogEntry, string> {
    Log(user, modelType, modelId, "deleted", Some(attributes), None, description)
  }

  /** A creation and a deletion of the same attributes are mirror images. */
  lemma CreatedDeletedMirror(user: Option<User>, modelType: string, modelId: Id, attributes: Attrs, description: Option<string>)
    requires user.Some?
    ensures LogCreated(user, modelType, modelId, attributes, description).value.oldValues == None
    ensures LogCreated(user, modelType, modelId, attributes, description).value.newValues ==
      LogDeleted(user, modelType, modelId, attributes, description).value.oldValues
    ensures LogDeleted(user, modelType, modelId, attributes, description).value.newValues == None
  {
  }

  /** `getChanges()` after a save: the attributes whose value the save changed. */
  function Changes(before: Attrs, after: Attrs): (c: Attrs)
    ensures forall k :: k in c <==> k in after && (k !in before || before[k] != after[k])
    ensures forall k | k in c :: c[k] == after[k]
  {
    map k | k in after && (k !in before || before[k] != after[k]) :: after[k]
  }

  /** Two different attribute arrays over the same columns always have a change. */
  lemma ChangesOfDifferentArrays(before: Attrs, after: Attrs)
    requires before.Keys == after.Keys && before != after
    ensures Changes(before, after) != map[]
  {
    var k :| k in after && before[k] != after[k];
    assert k in Changes(before, after);
  }

  /** `array_intersect_key($a, $b)`: the entries of `a` whose key is also in `b`. */
  function IntersectKey(a: Attrs, b: Attrs): (r: Attrs)
    ensures r.Keys == a.Keys * b.Keys
    ensures forall k | k in r :: r[k] == a[k]
  {
    map k | k in a && k in b :: a[k]
  }

  /** `logUpdated`: old values are the original attributes restricted to the changed keys; new values are the changes. */
  function LogUpdated(user: Option<User>, modelType: string, modelId: Id, changes: Attrs, original: Attrs, description: Option<string>): Result<LogEntry, string> {
    Log(user, modelType, modelId, "updated", Some(IntersectKey(original, changes)), Some(changes), description)
  }

  /**
   * For a real change of a row, the update record pairs every changed column
   * with its old and its new value, and names no other column.
   */
  lemma LogUpdatedPairsValues(user: Option<User>, modelType: string, modelId: Id, before: Attrs, after: Attrs, description: Option<string>)
    requires user.Some? && before.Keys == after.Keys
    ensures var e := LogUpdated(user, modelType, modelId, Changes(before, after), before, description).value;
      && e.oldValues.Some? && e.newValues.Some?
      && e.oldValues.value.Keys == e.newValues.value.Keys
      && (forall k :: k in e.newValues.value <==> k in after && before[k] != after[k])
      && (forall k | k in e.newValues.value :: e.oldValues.value[k] == before[k] && e.newValues.value[k] == after[k])
  {
  }

  /** `sprintf('Order #%d transitioned from %s to %s', ...)`. */
  function TransitionDescription(id: Id, oldStatus: string, newStatus: string): string {
    "Order #" + IntToString(id) + " transitioned from " + oldStatus + " to " + newStatus
  }

  /**
   * `logOrderTransition`: action `strtolower($newStatus)`, old values
   * `{status: old}`, new values `{status: new}` merged with the extra data
   * (a later key wins, as `array_merge` does for string keys).
   */
  function LogOrderTransition(user: Option<User>, orderId: Id, oldStatus: string, newStatus: string, extra: Option<Attrs>): Result<LogEntry, string> {
    Log(user, OrderClass, orderId, ToLower(newStatus),
        Some(map["status" := Str(oldStatus)]),
        Some(map["status" := Str(newStatus)] + extra.GetOr(map[])),
        Some(TransitionDescription(orderId, oldStatus, newStatus)))
  }

  lemma TransitionPayload(user: Option<User>, orderId: Id, oldStatus: string, newStatus: string, extra: Option<Attrs>)
    requires user.Some?
    ensures var e := LogOrderTransition(user, orderId, oldStatus, newStatus, extra).value;
      && e.action == ToLower(newStatus)
      && e.oldValues == Some(map["status" := Str(oldStatus)])
      && e.newValues.Some?
      && e.newValues.value.Keys == {"status"} + extra.GetOr(map[]).Keys
      && (forall k | k in extra.GetOr(map[]) :: e.newValues.value[k] == extra.GetOr(map[])[k])
      && ("status" !in extra.GetOr(map[]) ==> e.newValues.value["status"] == Str(newStatus))
      && e.description == Some(TransitionDescription(orderId, oldStatus, newStatus))
  {
  }

  /** The action each transition records: the lower-cased target status. */
  function ActionName(s: Status): string {
    match s
    case DRAFT => "draft"
    case SUBMITTED => "submitted"
    case SCHEDULED => "scheduled"
    case EN_ROUTE => "en_route"
    case DELIVERED => "delivered"
    case CANCELLED => "cancelled"
  }

  lemma TransitionActions(s: Status)
    ensures ToLower(StatusName(s)) == ActionName(s)
  {
    var r := ToLower(StatusName(s));
    match s
    case DRAFT =>
      assert r[0] == 'd' && r[1] == 'r' && r[2] == 'a' && r[3] == 'f' && r[4] == 't';
    case SUBMITTED =>
      assert r[0] == 's' && r[1] == 'u' && r[2] == 'b' && r[3] == 'm' && r[4] == 'i' && r[5] == 't' && r[6] == 't' && r[7] == 'e' && r[8] == 'd';
    case SCHEDULED =>
      assert r[0] == 's' && r[1] == 'c' && r[2] == 'h' && r[3] == 'e' && r[4] == 'd' && r[5] == 'u' && r[6] == 'l' && r[7] == 'e' && r[8] == 'd';
    case EN_ROUTE =>
      assert r[0] == 'e' && r[1] == 'n' && r[2] == '_' && r[3] == 'r' && r[4] == 'o' && r[5] == 'u' && r[6] == 't' && r[7] == 'e';
    case DELIVERED =>
      assert r[0] == 'd' && r[1] == 'e' && r[2] == 'l' && r[3] == 'i' && r[4] == 'v' && r[5] == 'e' && r[6] == 'r' && r[7] == 'e' && r[8] == 'd';
    case CANCELLED =>
      assert r[0] == 'c' && r[1] == 'a' && r[2] == 'n' && r[3] == 'c' && r[4] == 'e' && r[5] == 'l' && r[6] == 'l' && r[7] == 'e' && r[8] == 'd';
  }

  /** The actions the `match` has a template for. */
  predicate HasTemplate(action: string) {
    action in {"created", "updated", "deleted", "submitted", "scheduled", "dispatched", "delivered", "cancelled"}
  }

  /**
   * `getFormattedDescriptionAttribute`: a truthy stored description verbatim;
   * otherwise "<user> <action> <Model> #<id>" for the templated actions and
   * "<user> performed <action> on <Model> #<id>" for any other, where <user>
   * is "Unknown User" when the row has no user.
   */
  function FormattedDescription(e: LogEntry, userName: Option<string>): string {
    if TruthyOpt(e.description) then e.description.value
    else
      var who := userName.GetOr("Unknown User");
      var subject := ClassBasename(e.modelType) + " #" + IntToString(e.modelId);
      if HasTemplate(e.action) then who + " " + e.action + " " + subject
      else who + " performed " + e.action + " on " + subject
  }

  lemma StoredDescriptionVerbatim(e: LogEntry, userName: Option<string>)
    requires TruthyOpt(e.description)
    ensures FormattedDescription(e, userName) == e.description.value
  {
  }

  /** The `en_route` action that dispatching records has no template and takes the fallback. */
  lemma EnRouteTakesFallback(e: LogEntry, userName: Option<string>)
    requires !TruthyOpt(e.description) && e.action == "en_route"
    ensures FormattedDescription(e, userName) ==
      userName.GetOr("Unknown User") + " performed en_route on " + ClassBasename(e.modelType) + " #" + IntToString(e.modelId)
  {
    assert !HasTemplate("en_route");
  }

  /** Every transition record carries its own description, so the stored text is what is shown. */
  lemma TransitionShownVerbatim(user: Option<User>, orderId: Id, oldStatus: string, newStatus: string, extra: Option<Attrs>, userName: Option<string>)
    requires user.Some?
    ensures var e := LogOrderTransition(user, orderId, oldStatus, newStatus, extra).value;
      FormattedDescription(e, userName) == TransitionDescription(orderId, oldStatus, newStatus)
  {
    var d := TransitionDescription(orderId, oldStatus, newStatus);
    assert d[0] == 'O';
  }
}
