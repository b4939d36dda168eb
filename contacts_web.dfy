/**
 * The web "Emergency Contacts" page: a contact list kept in local storage,
 * tap to call, long press (800 ms) to ask for deletion.
 */
module EmergencyContactsPage {
  import opened Wrappers
  import opened Seqs
  import opened Contacts

  datatype Contact = Contact(id: string, details: ContactDetails)

  /** The list after adding `form` under `id`, or None when name or phone is empty. */
  function AddedContacts(contacts: seq<Contact>, form: ContactDetails, id: string): (r: Option<seq<Contact>>)
    ensures r.None? <==> !HasRequiredFields(form)
    ensures r.Some? ==> r.value == contacts + [Contact(id, form)]
  {
    if HasRequiredFields(form) then Some(contacts + [Contact(id, form)]) else None
  }

  /** `contacts.filter(c => c.id !== id)`. */
  function RemoveContact(contacts: seq<Contact>, id: string): seq<Contact> {
    Filter(contacts, (c: Contact) => c.id != id)
  }

  /**
   * Deleting removes every contact with that id and keeps every other one,
   * as often as it was there and in the same order; an unknown id changes
   * nothing.
   */
  lemma RemoveContactSpec(contacts: seq<Contact>, id: string, front: seq<Contact>, back: seq<Contact>)
    requires contacts == front + back
    ensures forall c: Contact :: c in RemoveContact(contacts, id) ==> c.id != id
    ensures forall c: Contact :: c.id != id ==> multiset(RemoveContact(contacts, id))[c] == multiset(contacts)[c]
    ensures RemoveContact(contacts, id) == RemoveContact(front, id) + RemoveContact(back, id)
    ensures (forall i :: 0 <= i < |contacts| ==> contacts[i].id != id) ==> RemoveContact(contacts, id) == contacts
  {
    FilterCounts(contacts, (c: Contact) => c.id != id);
    FilterConcat(front, back, (c: Contact) => c.id != id);
    if forall i :: 0 <= i < |contacts| ==> contacts[i].id != id {
      FilterIdentity(contacts, (c: Contact) => c.id != id);
    }
  }

  // ---------------------------------------------------------------------
  // Long press
  // ---------------------------------------------------------------------

  /**
   * The long-press machinery: the contact being pressed, the timer handle
   * kept in the `longPressTimer` ref, the timers scheduled and not yet
   * fired or cleared (handle to contact id), and the next handle.
   */
  datatype PressState = PressState(pressing: Option<string>, timerRef: Option<nat>,
                                   pending: map<nat, string>, nextTimer: nat)

  const IDLE: PressState := PressState(None, None, map[], 0)

  /**
   * Every scheduled timer is the one the ref holds and belongs to the
   * contact being pressed, and a pressed contact has its timer scheduled.
   */
  ghost predicate PressInvariant(s: PressState) {
    && (forall h :: h in s.pending ==> h < s.nextTimer && s.timerRef == Some(h) && s.pressing == Some(s.pending[h]))
    && (s.pressing.Some? ==> s.timerRef.Some? && s.timerRef.value in s.pending)
  }

  /** `handleLongPressStart` as the page has it: the ref is overwritten, an earlier timer is not cleared. */
  function PressStartAsWritten(s: PressState, contactId: string): PressState {
    PressState(Some(contactId), Some(s.nextTimer), s.pending[s.nextTimer := contactId], s.nextTimer + 1)
  }

  /** `handleLongPressEnd`: clears the timer the ref holds and the pressed contact. */
  function PressEnd(s: PressState): PressState {
    var pending := if s.timerRef.Some? then s.pending - {s.timerRef.value} else s.pending;
    PressState(None, None, pending, s.nextTimer)
  }

  /** `handleLongPressStart` clearing the timer of an earlier press before scheduling its own. */
  function PressStart(s: PressState, contactId: string): PressState {
    PressStartAsWritten(PressEnd(s), contactId)
  }

  /**
   * Timer `h` fires: if it is still scheduled, the delete confirmation opens
   * for its contact and nobody is pressing any more. The ref keeps the
   * spent handle.
   */
  function Fire(s: PressState, h: nat): (PressState, Option<string>) {
    if h in s.pending then (PressState(None, s.timerRef, s.pending - {h}, s.nextTimer), Some(s.pending[h]))
    else (s, None)
  }

  /** A tap dials only while no contact is being long-pressed. */
  predicate ClickDials(s: PressState) {
    s.pressing.None?
  }

  lemma IdleInvariant()
    ensures PressInvariant(IDLE)
  {
  }

  /** A press marks its contact and schedules one timer for it; the invariant is kept. */
  lemma PressStartSpec(s: PressState, contactId: string)
    requires PressInvariant(s)
    ensures var t := PressStart(s, contactId);
      && PressInvariant(t)
      && t.pressing == Some(contactId)
      && t.pending == map[s.nextTimer := contactId]
      && !ClickDials(t)
  {
    var e := PressEnd(s);
    assert e.pending == map[] by {
      forall h | h in s.pending
        ensures h !in e.pending
      {
        assert s.timerRef == Some(h);
      }
    }
  }

  /**
   * A tap between a press and its release does not dial, and a tap after the
   * release does; a press that a second press replaced cannot fire any more.
   */
  lemma TapDuringPress(s: PressState, first: string, second: string)
    requires PressInvariant(s)
    ensures !ClickDials(PressStart(s, first))
    ensures ClickDials(PressEnd(PressStart(s, first)))
    ensures var t := PressStart(PressStart(s, first), second);
      Fire(t, s.nextTimer).1 == None && Fire(PressEnd(t), s.nextTimer + 1).1 == None
  {
  }

  /** Releasing cancels every scheduled timer, so no later firing opens a confirmation. */
  lemma PressEndCancels(s: PressState, h: nat)
    requires PressInvariant(s)
    ensures PressInvariant(PressEnd(s))
    ensures PressEnd(s).pending == map[] && PressEnd(s).pressing == None
    ensures Fire(PressEnd(s), h).1 == None
  {
    forall k | k in s.pending
      ensures k !in PressEnd(s).pending
    {
      assert s.timerRef == Some(k);
    }
  }

  /** Holding long enough opens the confirmation for the pressed contact and ends the press. */
  lemma FireOpensForPressed(s: PressState, h: nat)
    requires PressInvariant(s)
    ensures PressInvariant(Fire(s, h).0)
    ensures Fire(s, h).1.Some? ==> s.pressing == Fire(s, h).1 && Fire(s, h).0.pressing == None
    ensures s.pressing.Some? && s.timerRef == Some(h) ==> Fire(s, h).1 == s.pressing
  {
  }

  /**
   * As written, two presses without a release in between (a second finger
   * on another card) leave the first timer scheduled but no longer held by
   * the ref: releasing does not cancel it, and it still opens a
   * confirmation for the first contact.
   */
  lemma PressStartAsWrittenLeaksTimer()
    ensures var s := PressEnd(PressStartAsWritten(PressStartAsWritten(IDLE, "a"), "b"));
      && s.pressing == None
      && !PressInvariant(s)
      && Fire(s, 0).1 == Some("a")
  {
    var s := PressEnd(PressStartAsWritten(PressStartAsWritten(IDLE, "a"), "b"));
    assert 0 in s.pending && s.timerRef == None;
  }

  // ---------------------------------------------------------------------
  // The page
  // ---------------------------------------------------------------------

  class Page {
    var contacts: seq<Contact>
    /** The "emergency-contacts" entry of local storage; None while it is absent. */
    var stored: Option<seq<Contact>>
    var isAdding: bool
    var newContact: ContactDetails
    /** The contact whose delete confirmation is open. */
    var showDeleteConfirm: Option<string>
    var press: PressState

    /** Local storage holds what the page shows, and the long-press machinery is consistent. */
    ghost predicate Valid()
      reads this
    {
      contacts == stored.GetOr([]) && PressInvariant(press)
    }

    /** Mounting: the saved list if there is one, else nothing (and nothing is saved). */
    constructor (saved: Option<seq<Contact>>)
      ensures Valid()
      ensures contacts == saved.GetOr([]) && stored == saved
      ensures !isAdding && newContact == EMPTY_CONTACT_FORM && showDeleteConfirm == None && press == IDLE
    {
      contacts := saved.GetOr([]);
      stored := saved;
      isAdding := false;
      newContact := EMPTY_CONTACT_FORM;
      showDeleteConfirm := None;
      press := IDLE;
    }

    /** `saveContacts`: state and storage both take the new list. */
    method SaveContacts(updated: seq<Contact>)
      modifies this`contacts, this`stored
      ensures contacts == updated && stored == Some(updated)
    {
      contacts := updated;
      stored := Some(updated);
    }

    /** `addContact`; `id` is the time stamp as text. */
    method AddContact(id: string) returns (added: bool)
      requires Valid()
      modifies this
      ensures Valid()
      ensures added == HasRequiredFields(old(newContact))
      ensures added ==> Some(contacts) == AddedContacts(old(contacts), old(newContact), id)
                        && newContact == EMPTY_CONTACT_FORM && !isAdding
      ensures !added ==> contacts == old(contacts) && stored == old(stored)
                         && newContact == old(newContact) && isAdding == old(isAdding)
      ensures showDeleteConfirm == old(showDeleteConfirm) && press == old(press)
    {
      added := HasRequiredFields(newContact);
      if !added {
        return;
      }
      SaveContacts(contacts + [Contact(id, newContact)]);
      newContact := EMPTY_CONTACT_FORM;
      isAdding := false;
    }

    /** `deleteContact`: removes the contacts with that id and closes the confirmation. */
    method DeleteContact(id: string)
      requires Valid()
      modifies this
      ensures Valid()
      ensures contacts == RemoveContact(old(contacts), id) && showDeleteConfirm == None
      ensures isAdding == old(isAdding) && newContact == old(newContact) && press == old(press)
    {
      SaveContacts(RemoveContact(contacts, id));
      showDeleteConfirm := None;
    }

    /** The confirmation's "Delete" button. */
    method ConfirmDelete()
      requires Valid() && showDeleteConfirm.Some?
      modifies this
      ensures Valid()
      ensures contacts == RemoveContact(old(contacts), old(showDeleteConfirm).value) && showDeleteConfirm == None
    {
      DeleteContact(showDeleteConfirm.value);
    }

    /** The confirmation's "Cancel" button: closes it and keeps every contact. */
    method CancelDelete()
      modifies this`showDeleteConfirm
      ensures showDeleteConfirm == None
    {
      showDeleteConfirm := None;
    }

    /**
     * Mouse-down or touch-start on a contact card, with the correction of
     * `PressStart`: the timer of an earlier press still held is cleared first.
     */
    method LongPressStart(contactId: string)
      requires Valid()
      modifies this`press
      ensures Valid()
      ensures press == PressStart(old(press), contactId) && press.pressing == Some(contactId)
      ensures press.pending == map[old(press).nextTimer := contactId] && !ClickDials(press)
    {
      PressStartSpec(press, contactId);
      press := PressStart(press, contactId);
    }

    /** Mouse-up, mouse-leave, touch-end or touch-cancel. */
    method LongPressEnd()
      requires Valid()
      modifies this`press
      ensures Valid()
      ensures press == PressEnd(old(press)) && press.pressing == None && press.pending == map[]
      ensures ClickDials(press)
    {
      PressEndCancels(press, 0);
      press := PressEnd(press);
    }

    /** The 800 ms timer with handle `h` fires. */
    method TimerFires(h: nat)
      requires Valid()
      modifies this`press, this`showDeleteConfirm
      ensures Valid()
      ensures press == Fire(old(press), h).0
      ensures showDeleteConfirm == if Fire(old(press), h).1.Some? then Fire(old(press), h).1 else old(showDeleteConfirm)
    {
      FireOpensForPressed(press, h);
      var fired := Fire(press, h);
      press := fired.0;
      if fired.1.Some? {
        showDeleteConfirm := fired.1;
      }
    }

    /** `handleContactClick`: the number dialled, or None while a long press is in progress. */
    method ContactClick(phone: string) returns (dialled: Option<string>)
      ensures dialled.Some? <==> press.pressing.None?
      ensures dialled.Some? ==> dialled.value == phone
    {
      dialled := if press.pressing.None? then Some(phone) else None;
    }

    method EditForm(form: ContactDetails)
      modifies this`newContact
      ensures newContact == form
    {
      newContact := form;
    }
  }
}
