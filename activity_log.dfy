/** components/activity-log-table.tsx: the action badge and the empty-table message. */
module ActivityLog {
  import opened Text
  import opened Badges

  datatype Activity = Activity(id: int, action: string, user: string, details: string, timestamp: string)

  /** `action.toLowerCase().includes(word)` */
  predicate Mentions(action: string, word: string) {
    Contains(Lower(action), word)
  }

  predicate IsAddition(action: string) {
    Mentions(action, "add") || Mentions(action, "create")
  }

  predicate IsUpdate(action: string) {
    Mentions(action, "update") || Mentions(action, "edit")
  }

  predicate IsDeletion(action: string) {
    Mentions(action, "delete") || Mentions(action, "remove")
  }

  /** `getActionBadgeStyle`: the first rule that applies decides, in the order add, update, delete. */
  function ActionBadge(action: string): (b: Badge)
    ensures b == Green <==> IsAddition(action)
    ensures b == Blue <==> !IsAddition(action) && IsUpdate(action)
    ensures b == Destructive <==> !IsAddition(action) && !IsUpdate(action) && IsDeletion(action)
    ensures b == Muted <==> !IsAddition(action) && !IsUpdate(action) && !IsDeletion(action)
  {
    if IsAddition(action) then Green
    else if IsUpdate(action) then Blue
    else if IsDeletion(action) then Destructive
    else Muted
  }

  /** The badge does not depend on the case of the action. */
  lemma ActionBadgeIgnoresCase(action: string)
    ensures ActionBadge(Upper(action)) == ActionBadge(action)
    ensures ActionBadge(Lower(action)) == ActionBadge(action)
  {
    LowerOfUpper(action);
    LowerIdempotent(action);
  }

  /** What `ActivityLogTable` renders. */
  datatype LogTable = NoActivityFound | Rows(rows: seq<(Activity, Badge)>)

  function RenderLog(acts: seq<Activity>): (t: LogTable)
    ensures t.NoActivityFound? <==> acts == []
    ensures t.Rows? ==> |t.rows| == |acts|
    ensures t.Rows? ==> forall i :: 0 <= i < |acts| ==> t.rows[i] == (acts[i], ActionBadge(acts[i].action))
  {
    if |acts| == 0 then NoActivityFound
    else Rows(seq(|acts|, i requires 0 <= i < |acts| => (acts[i], ActionBadge(acts[i].action))))
  }
}
