/**
  The "Delete All Data" button and its confirmation modal: the user must
  type DELETE exactly before the account data is deleted. The delete
  request and the sign-out that follows it are events: their answers
  arrive as method calls. Storage clearing, sign-out and the redirect are
  recorded as flags.
*/
module DeleteDataButton {
  import opened Wrappers
  import opened Text
  import opened Sessions

  const ConfirmWord := "DELETE"
  const DeleteFailed := "Failed to delete data"
  const AfterDeletion := "/login?deleted=true"

  /** `isConfirmValid`: the typed text is exactly the word, case and
      surrounding spaces included. */
  predicate IsConfirmValid(confirmText: string) { confirmText == ConfirmWord }

  /** The confirm button is enabled only for the exact word and while no
      deletion runs; the cancel button only while no deletion runs. */
  predicate ConfirmEnabled(confirmText: string, isDeleting: bool) {
    IsConfirmValid(confirmText) && !isDeleting
  }

  predicate CancelEnabled(isDeleting: bool) { !isDeleting }

  /** Only the exact word enables the confirm button, and never during a
      deletion: lower case, a trailing or a leading space do not. */
  lemma NearMissesRejected()
    ensures ConfirmEnabled(ConfirmWord, false) && !ConfirmEnabled(ConfirmWord, true)
    ensures !ConfirmEnabled("delete", false)
    ensures !ConfirmEnabled("DELETE ", false)
    ensures !ConfirmEnabled(" DELETE", false)
    ensures !ConfirmEnabled("", false)
  {
    assert "delete"[0] != ConfirmWord[0];
    assert |"DELETE "| != |ConfirmWord|;
  }

  class DeleteModal {
    var showModal: bool
    var confirmText: string
    var isDeleting: bool
    var error: Option<string>
    /** The user ids whose data deletion was requested. */
    var requests: seq<string>
    /** An unanswered delete request, and an unanswered sign-out. */
    var awaitingDelete: bool
    var awaitingSignOut: bool
    var storageCleared: bool
    var signedOut: bool
    var redirectedTo: Option<string>

    /** A deletion runs only inside the open modal, with one step of it
        outstanding until sign-out completes. */
    predicate Valid()
      reads this
    {
      (isDeleting ==> showModal)
      && !(awaitingDelete && awaitingSignOut)
      && (awaitingDelete || awaitingSignOut ==> isDeleting)
      && (isDeleting ==> awaitingDelete || awaitingSignOut || signedOut)
      && (awaitingSignOut || signedOut ==> storageCleared)
    }

    constructor()
      ensures Valid()
      ensures !showModal && confirmText == "" && !isDeleting && error.None?
      ensures requests == [] && !awaitingDelete && !awaitingSignOut
      ensures !storageCleared && !signedOut && redirectedTo.None?
    {
      showModal := false;
      confirmText := "";
      isDeleting := false;
      error := None;
      requests := [];
      awaitingDelete := false;
      awaitingSignOut := false;
      storageCleared := false;
      signedOut := false;
      redirectedTo := None;
    }

    /** `handleDeleteClick`: opens the modal with an empty text and no
        error. */
    method OpenModal()
      requires Valid()
      modifies this
      ensures Valid()
      ensures showModal && confirmText == "" && error.None?
      ensures isDeleting == old(isDeleting) && requests == old(requests)
      ensures awaitingDelete == old(awaitingDelete) && awaitingSignOut == old(awaitingSignOut)
      ensures storageCleared == old(storageCleared) && signedOut == old(signedOut) && redirectedTo == old(redirectedTo)
    {
      showModal := true;
      confirmText := "";
      error := None;
    }

    /** `handleCloseModal`: ignored while deleting, otherwise closes and
        resets the text and the error. */
    method CloseModal()
      requires Valid()
      modifies this
      ensures Valid()
      ensures old(isDeleting) ==> showModal == old(showModal) && confirmText == old(confirmText) && error == old(error)
      ensures !old(isDeleting) ==> !showModal && confirmText == "" && error.None?
      ensures isDeleting == old(isDeleting) && requests == old(requests)
      ensures awaitingDelete == old(awaitingDelete) && awaitingSignOut == old(awaitingSignOut)
      ensures storageCleared == old(storageCleared) && signedOut == old(signedOut) && redirectedTo == old(redirectedTo)
    {
      if !isDeleting {
        showModal := false;
        confirmText := "";
        error := None;
      }
    }

    /** Typing into the confirmation input, which is disabled while deleting. */
    method TypeConfirm(text: string)
      requires Valid() && showModal && !isDeleting
      modifies this
      ensures Valid()
      ensures confirmText == text
      ensures showModal == old(showModal) && isDeleting == old(isDeleting) && error == old(error)
      ensures requests == old(requests) && awaitingDelete == old(awaitingDelete) && awaitingSignOut == old(awaitingSignOut)
      ensures storageCleared == old(storageCleared) && signedOut == old(signedOut) && redirectedTo == old(redirectedTo)
    {
      confirmText := text;
    }

    /** `handleConfirmDelete` up to its request: nothing unless the session
        user has an id and the text is exactly the word; then deleting, no
        error, and one request for that id. Its button is disabled while a
        deletion runs. */
    method ConfirmDelete(session: Session)
      requires Valid() && showModal && !isDeleting
      modifies this
      ensures Valid()
      ensures !(session.user.Some? && StringTruthy(session.user.value.id) && IsConfirmValid(confirmText)) ==>
        isDeleting == old(isDeleting) && error == old(error) && requests == old(requests)
        && awaitingDelete == old(awaitingDelete)
      ensures session.user.Some? && StringTruthy(session.user.value.id) && IsConfirmValid(confirmText) ==>
        isDeleting && error.None? && awaitingDelete && requests == old(requests) + [session.user.value.id.value]
      ensures showModal == old(showModal) && confirmText == old(confirmText)
      ensures awaitingSignOut == old(awaitingSignOut)
      ensures storageCleared == old(storageCleared) && signedOut == old(signedOut) && redirectedTo == old(redirectedTo)
    {
      if session.user.None? || !StringTruthy(session.user.value.id) || confirmText != ConfirmWord {
        return;
      }
      isDeleting := true;
      error := None;
      requests := requests + [session.user.value.id.value];
      awaitingDelete := true;
    }

    /** The deletion succeeds: local and session storage are cleared and
        sign-out starts. */
    method OnDeleteOk()
      requires Valid() && awaitingDelete
      modifies this
      ensures Valid()
      ensures !awaitingDelete && awaitingSignOut && storageCleared
      ensures isDeleting && showModal == old(showModal) && confirmText == old(confirmText) && error == old(error)
      ensures requests == old(requests) && signedOut == old(signedOut) && redirectedTo == old(redirectedTo)
    {
      awaitingDelete := false;
      storageCleared := true;
      awaitingSignOut := true;
    }

    /** Sign-out completes: the browser is sent to the login page. The modal
        stays in its deleting state. */
    method OnSignOutOk()
      requires Valid() && awaitingSignOut
      modifies this
      ensures Valid()
      ensures !awaitingSignOut && signedOut && redirectedTo == Some(AfterDeletion)
      ensures isDeleting && showModal == old(showModal) && confirmText == old(confirmText) && error == old(error)
      ensures requests == old(requests) && awaitingDelete == old(awaitingDelete) && storageCleared == old(storageCleared)
    {
      awaitingSignOut := false;
      signedOut := true;
      redirectedTo := Some(AfterDeletion);
    }

    /** The deletion or the sign-out throws: its message (or the default)
        is shown, deleting ends and the modal stays open with its text. */
    method OnFailure(message: Option<string>)
      requires Valid() && (awaitingDelete || awaitingSignOut)
      modifies this
      ensures Valid()
      ensures error == Some(message.GetOr(DeleteFailed)) && !isDeleting
      ensures showModal && showModal == old(showModal) && confirmText == old(confirmText)
      ensures !awaitingDelete && !awaitingSignOut
      ensures requests == old(requests) && storageCleared == old(storageCleared)
      ensures signedOut == old(signedOut) && redirectedTo == old(redirectedTo)
    {
      error := Some(message.GetOr(DeleteFailed));
      isDeleting := false;
      awaitingDelete := false;
      awaitingSignOut := false;
    }
  }

  /** A session user known only by a Strava id cannot delete: the check
      reads the id field alone. */
  method StravaOnlyUserCannotDelete(n: int) returns (sent: nat)
    ensures sent == 0
  {
    var modal := new DeleteModal();
    modal.OpenModal();
    modal.TypeConfirm(ConfirmWord);
    modal.ConfirmDelete(Session(Some(User(None, Some(n))), None, None));
    sent := |modal.requests|;
  }
}
