/**
 * The contact-message inbox of the admin area: a status filter over the
 * store's messages, a selected message shown in full, viewing that marks an
 * unread message as read, and deletion that drops the selection when it
 * removes the selected message.
 */
module AdminContact {
  import opened Wrappers
  import opened Records
  import opened Collections
  import opened DataContext

  /** The filter button that shows every message. */
  const AllFilter := "all"
  const Read := "read"

  /** `contacts.filter(c => filter === 'all' || c.status === filter)`. */
  function FilteredContacts(contacts: seq<Record>, filter: string): (r: seq<Record>)
    ensures filter == AllFilter ==> r == contacts
    ensures filter != AllFilter ==> forall c :: c in r <==> c in contacts && Matches(c, StatusKey, filter)
    ensures filter != AllFilter ==> |r| == CountWhere(contacts, KeyIs(StatusKey, filter))
    ensures IsSubsequence(r, contacts)
  {
    if filter == AllFilter then
      IsSubsequenceRefl(contacts);
      contacts
    else
      FilterIsSubsequence(contacts, KeyIs(StatusKey, filter));
      Filter(contacts, KeyIs(StatusKey, filter))
  }

  /** `contacts.find(c => c.id === selected)`: nothing when no message is selected. */
  function SelectedContact(contacts: seq<Record>, selected: Option<string>): (r: Option<Record>)
    ensures r.None? <==> selected.None? || forall c :: c in contacts ==> !Matches(c, IdKey, selected.value)
    ensures r.Some? ==> (exists i :: 0 <= i < |contacts| && contacts[i] == r.value
                           && Matches(r.value, IdKey, selected.value)
                           && (forall j :: 0 <= j < i ==> !Matches(contacts[j], IdKey, selected.value)))
  {
    if selected.None? then None else Find(contacts, KeyIs(IdKey, selected.value))
  }

  /** Viewing marks the message read exactly when the first message with that id is unread. */
  predicate ViewMarksRead(contacts: seq<Record>, id: string)
  {
    var c := SelectedContact(contacts, Some(id));
    c.Some? && Matches(c.value, StatusKey, Unread)
  }

  /** The messages after viewing `id`. */
  function AfterView(contacts: seq<Record>, id: string): (r: seq<Record>)
    ensures !ViewMarksRead(contacts, id) ==> r == contacts
    ensures |r| == |contacts|
    ensures forall i :: 0 <= i < |contacts| && !Matches(contacts[i], IdKey, id) ==> r[i] == contacts[i]
    ensures forall i :: 0 <= i < |contacts| && Matches(contacts[i], IdKey, id) ==>
      r[i] == (if ViewMarksRead(contacts, id) then contacts[i][StatusKey := Text(Read)] else contacts[i])
  {
    if ViewMarksRead(contacts, id) then StatusUpdated(contacts, id, Read) else contacts
  }

  /**
   * After viewing, the message shown is the one that was selected, with an
   * unread status turned into read and any other status (read, replied)
   * left as it was.
   */
  lemma ViewedContact(contacts: seq<Record>, id: string)
    ensures SelectedContact(AfterView(contacts, id), Some(id)) ==
      match SelectedContact(contacts, Some(id))
      case None => None
      case Some(c) => Some(if Matches(c, StatusKey, Unread) then c[StatusKey := Text(Read)] else c)
  {
    if ViewMarksRead(contacts, id) {
      FindIndexAfterMapWhere(contacts, KeyIs(IdKey, id), SetStatus(Read));
      assert AfterView(contacts, id) == MapWhere(contacts, KeyIs(IdKey, id), SetStatus(Read));
    }
  }

  /** Once a message is deleted, selecting its id shows nothing. */
  lemma DeletedNotSelectable(contacts: seq<Record>, id: string)
    ensures SelectedContact(Removed(contacts, IdKey, id), Some(id)).None?
  {
  }

  /** Deleting another message leaves the selected message shown as it was. */
  lemma DeleteKeepsOtherSelection(contacts: seq<Record>, id: string, selected: string)
    requires selected != id
    ensures SelectedContact(Removed(contacts, IdKey, id), Some(selected)) == SelectedContact(contacts, Some(selected))
  {
    FindAfterFilter(contacts, KeyIsNot(IdKey, id), KeyIs(IdKey, selected));
  }

  class ContactInbox {
    const store: DataStore
    /** The id of the message shown in full, `null` when none is. */
    var selectedMessage: Option<string>
    var filter: string

    constructor (store: DataStore)
      ensures this.store == store && selectedMessage == None && filter == AllFilter
    {
      this.store := store;
      selectedMessage, filter := None, AllFilter;
    }

    /** The messages listed under the current filter. */
    function Visible(): (r: seq<Record>)
      reads this, store
      ensures filter == AllFilter ==> r == store.contacts
      ensures filter != AllFilter ==> forall c :: c in r <==> c in store.contacts && Matches(c, StatusKey, filter)
      ensures filter != AllFilter ==> |r| == CountWhere(store.contacts, KeyIs(StatusKey, filter))
      ensures IsSubsequence(r, store.contacts)
    {
      FilteredContacts(store.contacts, filter)
    }

    /** The message shown in full. */
    function Shown(): (r: Option<Record>)
      reads this, store
      ensures r.None? <==> selectedMessage.None? || forall c :: c in store.contacts ==> !Matches(c, IdKey, selectedMessage.value)
      ensures r.Some? ==> r.value in store.contacts && Matches(r.value, IdKey, selectedMessage.value)
      ensures r.Some? ==> (exists i :: 0 <= i < |store.contacts| && store.contacts[i] == r.value
                             && forall j :: 0 <= j < i ==> !Matches(store.contacts[j], IdKey, selectedMessage.value))
    {
      SelectedContact(store.contacts, selectedMessage)
    }

    /** One of the filter buttons. */
    method SetFilter(f: string)
      modifies this
      ensures filter == f && selectedMessage == old(selectedMessage)
      ensures Shown() == old(Shown())
    {
      filter := f;
    }

    /** The "mark as" buttons: the store sets that status on every message with the id. */
    method HandleStatusChange(id: string, status: string)
      modifies store
      ensures store.contacts == StatusUpdated(old(store.contacts), id, status)
      ensures store.services == old(store.services) && store.projects == old(store.projects)
      ensures store.team == old(store.team)
    {
      store.UpdateContactStatus(id, status);
    }

    /**
     * Deleting after the confirmation dialog; a declined dialog changes
     * nothing. Deleting the selected message clears the selection, deleting
     * another keeps it.
     */
    method HandleDelete(id: string, confirmed: bool)
      modifies this, store
      ensures store.contacts == if confirmed then Removed(old(store.contacts), IdKey, id) else old(store.contacts)
      ensures selectedMessage == if confirmed && old(selectedMessage) == Some(id) then None else old(selectedMessage)
      ensures Shown() == if confirmed && old(selectedMessage) == Some(id) then None else old(Shown())
      ensures filter == old(filter)
      ensures store.services == old(store.services) && store.projects == old(store.projects)
      ensures store.team == old(store.team)
    {
      if confirmed {
        if selectedMessage.Some? && selectedMessage.value != id {
          DeleteKeepsOtherSelection(store.contacts, id, selectedMessage.value);
        }
        store.DeleteContact(id);
        if selectedMessage == Some(id) {
          selectedMessage := None;
        }
      }
    }

    /** Viewing a message selects it and marks it read if it was unread. */
    method HandleViewMessage(id: string)
      modifies this, store
      ensures selectedMessage == Some(id) && filter == old(filter)
      ensures store.contacts == AfterView(old(store.contacts), id)
      ensures Shown() ==
        match SelectedContact(old(store.contacts), Some(id))
        case None => None
        case Some(c) => Some(if Matches(c, StatusKey, Unread) then c[StatusKey := Text(Read)] else c)
      ensures store.services == old(store.services) && store.projects == old(store.projects)
      ensures store.team == old(store.team)
    {
      ViewedContact(store.contacts, id);
      selectedMessage := Some(id);
      var contact := SelectedContact(store.contacts, Some(id));
      if contact.Some? && Matches(contact.value, StatusKey, Unread) {
        HandleStatusChange(id, Read);
      }
    }
  }
}
