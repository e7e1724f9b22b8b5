/** The toast notifications: the list the hook keeps (append, removal by
    id, clear), the four typed shortcuts, the default duration and the
    auto-close rule. The random id is a parameter. */
module Toast {
  import opened Common
  import opened Seqs

  datatype ToastType = Success | Error | Info | Warning

  /** A toast as the caller describes it, before it gets an id. */
  datatype ToastRequest = ToastRequest(kind: ToastType, title: string, message: Option<string>, duration: Option<int>)

  datatype ToastData = ToastData(id: string, kind: ToastType, title: string, message: Option<string>, duration: Option<int>)

  const DefaultDuration := 5000

  /** `duration = 5000` in the destructuring: only an absent value is
      replaced. */
  function Duration(t: ToastData): (d: int)
    ensures t.duration.None? ==> d == DefaultDuration
    ensures t.duration.Some? ==> d == t.duration.value
  {
    t.duration.GetOr(DefaultDuration)
  }

  /** The delay of the close timer, when one is started: only for a
      positive duration, so 0 or a negative value keeps the toast up. */
  function AutoCloseAfter(t: ToastData): (r: Option<int>)
    ensures r.Some? <==> Duration(t) > 0
    ensures r.Some? ==> r.value == Duration(t) && r.value > 0
    ensures t.duration.None? ==> r == Some(DefaultDuration)
  {
    var d := Duration(t);
    if d > 0 then Some(d) else None
  }

  /** The message line is shown only for a non-empty message. */
  predicate ShowsMessage(t: ToastData) {
    IsTruthy(t.message)
  }

  /** `ToastContainer` renders nothing for an empty list, and one entry per
      toast otherwise. */
  function Rendered(toasts: seq<ToastData>): (r: Option<seq<ToastData>>)
    ensures r.None? <==> toasts == []
    ensures r.Some? ==> r.value == toasts
  {
    if |toasts| == 0 then None else Some(toasts)
  }

  /** `Math.random().toString(36).substr(2, 9)`: at most nine characters of
      the digits after `0.`. */
  function ToastId(digits: string): (id: string)
    ensures |id| <= 9 && |id| <= |digits|
    ensures id == digits[..|id|]
    ensures |digits| >= 9 ==> |id| == 9
  {
    if |digits| <= 9 then digits else digits[..9]
  }

  function WithId(t: ToastRequest, id: string): ToastData {
    ToastData(id, t.kind, t.title, t.message, t.duration)
  }

  function IdIsNot(id: string): ToastData -> bool {
    (t: ToastData) => t.id != id
  }

  /** `addToast`: one toast appended at the end with the given fields and
      the id; the toasts before it are unchanged. */
  function Added(toasts: seq<ToastData>, t: ToastRequest, id: string): (r: seq<ToastData>)
    ensures |r| == |toasts| + 1 && r[..|toasts|] == toasts
    ensures r[|toasts|].id == id && r[|toasts|].kind == t.kind && r[|toasts|].title == t.title
    ensures r[|toasts|].message == t.message && r[|toasts|].duration == t.duration
  {
    toasts + [WithId(t, id)]
  }

  /** `removeToast`: every toast with that id is dropped; the others stay,
      in their order. */
  function Removed(toasts: seq<ToastData>, id: string): (r: seq<ToastData>)
    ensures forall x :: x in r <==> x in toasts && x.id != id
    ensures |r| <= |toasts|
  {
    Filter(toasts, IdIsNot(id))
  }

  /** Removing an id twice is removing it once. */
  lemma RemovedIdempotent(toasts: seq<ToastData>, id: string)
    ensures Removed(Removed(toasts, id), id) == Removed(toasts, id)
  {
    FilterAll(Removed(toasts, id), IdIsNot(id));
  }

  /** Closing a toast just added, whose id no earlier toast carries, gives
      back the list as it was. */
  lemma RemoveUndoesAdd(toasts: seq<ToastData>, t: ToastRequest, id: string)
    requires forall x :: x in toasts ==> x.id != id
    ensures Removed(Added(toasts, t, id), id) == toasts
  {
    FilterConcat(toasts, [WithId(t, id)], IdIsNot(id));
    FilterAll(toasts, IdIsNot(id));
    assert Filter([WithId(t, id)], IdIsNot(id)) == [];
  }

  /** Removal keeps the relative order: removing from a concatenation is
      removing from each part. */
  lemma RemovedKeepsOrder(front: seq<ToastData>, back: seq<ToastData>, id: string)
    ensures Removed(front + back, id) == Removed(front, id) + Removed(back, id)
  {
    FilterConcat(front, back, IdIsNot(id));
  }

  /** The hook's state. */
  class ToastList {
    var toasts: seq<ToastData>

    constructor ()
      ensures toasts == []
    {
      toasts := [];
    }

    method AddToast(t: ToastRequest, idDigits: string)
      modifies this
      ensures toasts == Added(old(toasts), t, ToastId(idDigits))
    {
      toasts := toasts + [WithId(t, ToastId(idDigits))];
    }

    method RemoveToast(id: string)
      modifies this
      ensures toasts == Removed(old(toasts), id)
    {
      toasts := Removed(toasts, id);
    }

    method ClearAll()
      modifies this
      ensures toasts == []
    {
      toasts := [];
    }

    /** `success`, `error`, `warning` and `info`: a toast of that type. */
    method Notify(kind: ToastType, title: string, message: Option<string>, duration: Option<int>, idDigits: string)
      modifies this
      ensures toasts == Added(old(toasts), ToastRequest(kind, title, message, duration), ToastId(idDigits))
      ensures toasts[|toasts| - 1].kind == kind
    {
      AddToast(ToastRequest(kind, title, message, duration), idDigits);
    }
  }
}
