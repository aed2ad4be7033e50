/**
 * The notice shown once a user has signed in. It opens on a check unless storage says it
 * was dismissed for good, and closing it with "don't show again" ticked records that.
 */
module LoginNotice {
  import opened Wrappers
  import opened BrowserStorage

  const DismissedKey: string := "login-notice-dismissed"

  /** The session status the page sees. */
  datatype AuthStatus = Loading | Authenticated | Unauthenticated

  /** The notice is wanted unless storage works and holds `"true"`; a failing read shows it. */
  predicate NoticeWanted(storage: Storage)
    reads storage
  {
    storage.Lookup(DismissedKey) != Some("true")
  }

  /** The notice, whose `open` and `dontShowAgain` flags its handlers update in place. */
  class LoginNoticeModal {
    var open: bool
    var dontShowAgain: bool
    const storage: Storage

    constructor(storage: Storage)
      ensures !open && !dontShowAgain && this.storage == storage
    {
      open := false;
      dontShowAgain := false;
      this.storage := storage;
    }

    /** What is drawn: nothing unless the user is signed in and the notice is open. */
    predicate Visible(status: AuthStatus)
      reads this
    {
      status == Authenticated && open
    }

    /** `checkAndShow`: only for a signed-in user, open the notice unless it was dismissed for good. */
    method CheckAndShow(status: AuthStatus)
      modifies this
      ensures dontShowAgain == old(dontShowAgain)
      ensures status != Authenticated ==> open == old(open)
      ensures status == Authenticated ==> open == (old(open) || NoticeWanted(storage))
    {
      if status != Authenticated {
        return;
      }
      var stored, threw := storage.GetItem(DismissedKey);
      if threw {
        open := true;
      } else if stored != Some("true") {
        open := true;
      }
    }

    /** The "don't show again" checkbox. */
    method SetDontShowAgain(checked: bool)
      modifies this
      ensures dontShowAgain == checked && open == old(open)
    {
      dontShowAgain := checked;
    }

    /**
     * `handleClose`: the notice always closes; with the box ticked it records the dismissal,
     * so that a later check keeps it closed. A failing write is ignored.
     */
    method Close()
      modifies this, storage
      ensures !open && dontShowAgain == old(dontShowAgain)
      ensures storage.available == old(storage.available)
      ensures storage.items == if dontShowAgain && storage.available then old(storage.items)[DismissedKey := "true"] else old(storage.items)
      ensures dontShowAgain && storage.available ==> !NoticeWanted(storage)
      ensures !dontShowAgain ==> NoticeWanted(storage) == old(NoticeWanted(storage))
    {
      if dontShowAgain {
        var _ := storage.SetItem(DismissedKey, "true");
      }
      open := false;
    }
  }

  /** Whatever the notice's state and whatever storage holds, a user who is not signed in never sees it. */
  method NeverShownSignedOut(notice: LoginNoticeModal, status: AuthStatus) returns (shown: bool)
    requires status != Authenticated
    modifies notice
    ensures !shown
  {
    notice.CheckAndShow(status);
    shown := notice.Visible(status);
  }

  /** Dismissing for good and signing in again: the notice stays closed while storage works. */
  method DismissThenCheck(storage: Storage) returns (shown: bool)
    requires storage.available
    modifies storage
    ensures !shown
  {
    var notice := new LoginNoticeModal(storage);
    notice.CheckAndShow(Authenticated);
    notice.SetDontShowAgain(true);
    notice.Close();
    var again := new LoginNoticeModal(storage);
    again.CheckAndShow(Authenticated);
    shown := again.Visible(Authenticated);
  }

  /** A signed-in user with storage unavailable sees the notice on every check. */
  method ShownWhenStorageFails(storage: Storage) returns (shown: bool)
    requires !storage.available
    ensures shown
  {
    var notice := new LoginNoticeModal(storage);
    notice.CheckAndShow(Authenticated);
    shown := notice.Visible(Authenticated);
  }
}
