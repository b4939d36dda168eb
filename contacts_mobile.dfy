/** The mobile "Emergency Contacts" screen, backed by the remote `emergency_contacts` table. */
module EmergencyContactsScreen {
  import opened Wrappers
  import opened Seqs
  import opened Remote
  import opened Contacts
  import opened Alerts

  const ADD_FAILED_ALERT := Alert("Error", "Failed to add contact")

  /** The rows `fetchContacts` asks for: the user's own contacts, newest first. */
  function OwnContacts(rows: seq<Row<ContactDetails>>, userId: string): seq<Row<ContactDetails>> {
    Select(rows, (r: Row<ContactDetails>) => r.userId == userId)
  }

  /** A user sees exactly their own contacts, newest first. */
  lemma OwnContactsSpec(rows: seq<Row<ContactDetails>>, userId: string)
    ensures NewestFirst(OwnContacts(rows, userId))
    ensures forall r :: r in OwnContacts(rows, userId) ==> r.userId == userId
    ensures forall r :: multiset(OwnContacts(rows, userId))[r] == if r.userId == userId then multiset(rows)[r] else 0
  {
    var own := (r: Row<ContactDetails>) => r.userId == userId;
    SelectSpec(rows, own);
    var listed := OwnContacts(rows, userId);
    forall r: Row<ContactDetails>
      ensures multiset(listed)[r] == if r.userId == userId then multiset(rows)[r] else 0
    {
      assert own(r) == (r.userId == userId);
    }
    forall r: Row<ContactDetails> | r in listed
      ensures r.userId == userId
    {
      assert multiset(listed)[r] > 0;
    }
  }

  /** A contact added after all the others is listed first. */
  lemma {:induction false} NewestContactFirst(rows: seq<Row<ContactDetails>>, row: Row<ContactDetails>)
    requires forall r :: r in rows ==> r.createdAt < row.createdAt
    ensures var listed := OwnContacts(rows + [row], row.userId);
      |listed| > 0 && listed[0] == row
  {
    var all := rows + [row];
    var listed := OwnContacts(all, row.userId);
    OwnContactsSpec(all, row.userId);
    assert multiset(all)[row] > 0;
    assert row in listed;
    var j :| 0 <= j < |listed| && listed[j] == row;
    assert listed[0].createdAt >= row.createdAt;
    assert listed[0] in multiset(listed);
    assert listed[0] in all;
  }

  /** The row `addContact` inserts: the form plus the signed-in user. */
  function ContactRow(form: ContactDetails, userId: string, id: string, createdAt: int): (r: Row<ContactDetails>)
    ensures r.userId == userId && r.fields == form && r.id == id
  {
    Row(id, userId, createdAt, form)
  }

  /** `delete().eq("id", id).eq("user_id", user?.id)`; with nobody signed in no row matches. */
  function DeleteTarget(user: Option<string>, id: string): Row<ContactDetails> -> bool {
    (r: Row<ContactDetails>) => r.id == id && user == Some(r.userId)
  }

  /**
   * A delete removes the user's rows with that id and nothing else: other
   * users' rows and the user's other contacts stay, each as often as before.
   */
  lemma DeleteScoped(rows: seq<Row<ContactDetails>>, user: Option<string>, id: string)
    ensures var after := Without(rows, DeleteTarget(user, id));
      && (forall r :: r in after ==> !(r.id == id && user == Some(r.userId)))
      && (forall r: Row<ContactDetails> :: (r.id != id || user != Some(r.userId)) ==> multiset(after)[r] == multiset(rows)[r])
      && (user.None? ==> after == rows)
  {
    WithoutSpec(rows, DeleteTarget(user, id));
    var after := Without(rows, DeleteTarget(user, id));
    forall r | r in after
      ensures !(r.id == id && user == Some(r.userId))
    {
      assert multiset(after)[r] > 0;
    }
  }

  class Screen {
    const table: Table<ContactDetails>
    /** The signed-in user's id, None when nobody is signed in. */
    const user: Option<string>
    var contacts: seq<Row<ContactDetails>>
    var isAddingContact: bool
    var newContact: ContactDetails
    /** The last alert shown, if any. */
    var alert: Option<Alert>

    constructor (table: Table<ContactDetails>, user: Option<string>)
      ensures this.table == table && this.user == user
      ensures contacts == [] && !isAddingContact && newContact == EMPTY_CONTACT_FORM && alert == None
    {
      this.table := table;
      this.user := user;
      contacts := [];
      isAddingContact := false;
      newContact := EMPTY_CONTACT_FORM;
      alert := None;
    }

    /** `fetchContacts`: nothing without a user; `failed` is true when the query returns no data. */
    method FetchContacts(failed: bool)
      modifies this`contacts
      ensures contacts == if user.None? || failed then old(contacts) else OwnContacts(table.rows, user.value)
    {
      if user.Some? && !failed {
        contacts := OwnContacts(table.rows, user.value);
      }
    }

    /**
     * `addContact`; `id` and `createdAt` are what the database assigns,
     * `accepted` whether it accepts the insert. The refetch that follows a
     * successful insert is taken to return data.
     */
    method AddContact(id: string, createdAt: int, accepted: bool) returns (inserted: bool)
      modifies this, table
      ensures inserted == (HasRequiredFields(old(newContact)) && user.Some? && accepted)
      ensures !HasRequiredFields(old(newContact)) || user.None?
              ==> table.rows == old(table.rows) && alert == old(alert)
                  && contacts == old(contacts) && newContact == old(newContact) && isAddingContact == old(isAddingContact)
      ensures inserted ==> table.rows == old(table.rows) + [ContactRow(old(newContact), user.value, id, createdAt)]
                           && newContact == EMPTY_CONTACT_FORM && !isAddingContact
                           && contacts == OwnContacts(table.rows, user.value) && alert == old(alert)
      ensures HasRequiredFields(old(newContact)) && user.Some? && !accepted
              ==> table.rows == old(table.rows) && alert == Some(ADD_FAILED_ALERT)
                  && contacts == old(contacts) && newContact == old(newContact) && isAddingContact == old(isAddingContact)
    {
      inserted := false;
      if !HasRequiredFields(newContact) || user.None? {
        return;
      }
      var ok := table.Insert(ContactRow(newContact, user.value, id, createdAt), accepted);
      if ok {
        newContact := EMPTY_CONTACT_FORM;
        isAddingContact := false;
        FetchContacts(false);
        inserted := true;
      } else {
        alert := Some(ADD_FAILED_ALERT);
      }
    }

    /**
     * `deleteContact`: `confirmed` is the choice in the confirmation alert
     * ("Delete" rather than "Cancel"), `accepted` whether the service accepts
     * the delete. The refetch that follows is taken to return data.
     */
    method DeleteContact(id: string, confirmed: bool, accepted: bool) returns (deleted: bool)
      modifies this`contacts, table
      ensures deleted == (confirmed && accepted)
      ensures table.rows == if deleted then Without(old(table.rows), DeleteTarget(user, id)) else old(table.rows)
      ensures contacts == if deleted && user.Some? then OwnContacts(table.rows, user.value) else old(contacts)
    {
      deleted := false;
      if !confirmed {
        return;
      }
      deleted := table.Delete(DeleteTarget(user, id), accepted);
      if deleted {
        FetchContacts(false);
      }
    }

    method EditForm(form: ContactDetails)
      modifies this`newContact
      ensures newContact == form
    {
      newContact := form;
    }
  }
}
