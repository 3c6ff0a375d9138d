/**
 * The two collection mutation hooks: adding a word to a collection and removing one.
 * The mutation itself runs on the server; what the hook does once it settles is a toast
 * and, on success, invalidation of the collection queries.  The function the hook returns
 * never throws: a failure is reported only through the hook's own error toast.
 */
module CollectionMutations {

  datatype Mutation = AddWord | RemoveWord

  /** How the server call settled: resolved, or rejected with an error whose `message` may be empty. */
  datatype Settled = Resolved | Rejected(message: string)

  datatype Toast = SuccessToast(text: string) | ErrorToast(text: string)

  /** What the hook does when the mutation settles: the toast it shows and the query keys it invalidates. */
  datatype Settlement = Settlement(toast: Toast, invalidated: seq<seq<string>>)

  const WordSavedMessage: string := "Word saved successfully"
  const WordRemovedMessage: string := "Word removed successfully"
  const SaveFailedMessage: string := "Failed to save word"
  const RemoveFailedMessage: string := "Failed to remove word"

  /**
   * `onSuccess` / `onError`: a success toasts and invalidates the collection and the collections
   * list; an error toasts its message, or the hook's fallback when the message is empty, and
   * invalidates nothing.
   */
  function Settle(mutation: Mutation, collectionId: string, settled: Settled): (s: Settlement)
    ensures s.toast.SuccessToast? <==> settled.Resolved?
    ensures s.toast.text != []
    ensures settled.Resolved? ==>
      s.toast.text == (if mutation == AddWord then WordSavedMessage else WordRemovedMessage)
      && s.invalidated == [["collection", collectionId], ["collections"]]
    ensures settled.Rejected? ==> s.invalidated == []
    ensures settled.Rejected? && settled.message != [] ==> s.toast.text == settled.message
    ensures settled.Rejected? && settled.message == [] ==>
      s.toast.text == (if mutation == AddWord then SaveFailedMessage else RemoveFailedMessage)
  {
    match settled
    case Resolved =>
      var text := if mutation == AddWord then WordSavedMessage else WordRemovedMessage;
      Settlement(SuccessToast(text), [["collection", collectionId], ["collections"]])
    case Rejected(message) =>
      var fallback := if mutation == AddWord then SaveFailedMessage else RemoveFailedMessage;
      Settlement(ErrorToast(if message != [] then message else fallback), [])
  }
}
