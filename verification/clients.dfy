/**
 * The client list screen: the list controller, the add form with its seven draft fields and the
 * delete confirm gate.
 */
module Clients {
  import opened Wrappers
  import opened Envelope
  import opened ListController
  import opened ConfirmGate

  /** A listed client, with the member the status column shows. */
  datatype ClientRecord = ClientRecord(id: nat, isActive: bool)

  /** The add form's seven draft fields. */
  datatype ClientDraft = ClientDraft(
    firstName: string,
    lastName: string,
    contactNumber: string,
    email: string,
    password: string,
    username: string,
    country: string)

  const EmptyDraft := ClientDraft("", "", "", "", "", "", "")

  /** The body of the create request, with its wire member names in snake case. */
  datatype NewClient = NewClient(
    first_name: string,
    last_name: string,
    contact_number: string,
    email: string,
    password: string,
    username: string,
    country: string)

  function NewClientOf(d: ClientDraft): (c: NewClient)
    ensures c.first_name == d.firstName && c.last_name == d.lastName
    ensures c.contact_number == d.contactNumber && c.email == d.email
    ensures c.password == d.password && c.username == d.username && c.country == d.country
  {
    NewClient(d.firstName, d.lastName, d.contactNumber, d.email, d.password, d.username, d.country)
  }

  function DraftOf(c: NewClient): ClientDraft
  {
    ClientDraft(c.first_name, c.last_name, c.contact_number, c.email, c.password, c.username, c.country)
  }

  /** The create request carries exactly the seven draft fields: nothing is lost or added. */
  lemma NewClientCarriesDraft(d: ClientDraft, c: NewClient)
    ensures DraftOf(NewClientOf(d)) == d
    ensures NewClientOf(DraftOf(c)) == c
  {
  }

  /** The status column's text. */
  function StatusLabel(isActive: bool): (s: string)
    ensures s == "Active" <==> isActive
    ensures s == "Active" || s == "Inactive"
  {
    if isActive then "Active" else "Inactive"
  }

  /** `isLoading` starts true and `fetchClients` raises it. */
  const ClientConfig := Config(DataKeys, true, true)

  class ClientScreen {
    const list: ListState<ClientRecord>
    var showAddForm: bool
    var draft: ClientDraft
    var deleteGate: Gate

    predicate Valid()
      reads this, list
    {
      list.cfg == ClientConfig && list.Valid() && deleteGate.Valid()
    }

    constructor ()
      ensures Valid() && fresh(list)
      ensures list.View() == Mounted(ClientConfig)
      ensures !showAddForm && draft == EmptyDraft && deleteGate == Idle
    {
      list := new ListState(ClientConfig);
      showAddForm, draft, deleteGate := false, EmptyDraft, Idle;
    }

    /** `handleAddNewClick`. */
    method AddNew()
      modifies this`showAddForm
      ensures showAddForm
    {
      showAddForm := true;
    }

    /** The add form's Hide button. */
    method HideForm()
      modifies this`showAddForm
      ensures !showAddForm
    {
      showAddForm := false;
    }

    /** The add form's inputs, taken together: the draft becomes `d`. */
    method EditDraft(d: ClientDraft)
      modifies this`draft
      ensures draft == d
    {
      draft := d;
    }

    /** `handleReset`: every draft field back to `''`, and the add form hidden. */
    method Reset()
      modifies this`draft, this`showAddForm
      ensures draft == EmptyDraft && !showAddForm
    {
      draft := draft.(firstName := "", lastName := "", contactNumber := "", email := "");
      draft := draft.(password := "", username := "", country := "");
      showAddForm := false;
    }

    /**
     * `handleSaveClient`: the create request is built from the draft. On success the draft is
     * reset, the form hidden and the list fetched again; on failure nothing changes.
     */
    method Save(succeeded: bool) returns (sent: NewClient)
      requires Valid()
      modifies this`draft, this`showAddForm, list
      ensures Valid()
      ensures DraftOf(sent) == old(draft)
      ensures succeeded ==>
        && draft == EmptyDraft && !showAddForm
        && list.View() == FetchStarted(ClientConfig, old(list.View()))
      ensures !succeeded ==>
        && draft == old(draft) && showAddForm == old(showAddForm)
        && list.View() == old(list.View())
    {
      sent := NewClientOf(draft);
      if succeeded {
        Reset();
        showAddForm := false;
        list.BeginFetch();
      }
    }

    /** `handleDeleteClick(id)`. */
    method DeleteClick(id: nat)
      requires Valid()
      modifies this`deleteGate
      ensures Valid() && deleteGate == old(deleteGate).Request(id)
    {
      deleteGate := deleteGate.Request(id);
    }

    /** The dialog's Cancel button and its close. */
    method CancelDelete()
      requires Valid()
      modifies this`deleteGate
      ensures Valid() && deleteGate == old(deleteGate).Close()
    {
      deleteGate := deleteGate.Close();
    }

    /**
     * `handleConfirmDelete`: the stored id is deleted. On success the dialog closes and the list
     * is fetched again (which raises loading); on failure nothing changes and the dialog stays
     * open. The handler itself never sets the loading flag.
     */
    method ConfirmDelete(succeeded: bool) returns (target: nat)
      requires Valid() && deleteGate.open
      modifies this`deleteGate, list
      ensures Valid()
      ensures old(deleteGate).selected == Some(target)
      ensures succeeded ==>
        && deleteGate == old(deleteGate).Close()
        && list.View() == FetchStarted(ClientConfig, old(list.View()))
      ensures !succeeded ==> deleteGate == old(deleteGate) && list.View() == old(list.View())
    {
      target := deleteGate.selected.value;
      if succeeded {
        deleteGate := deleteGate.Close();
        list.BeginFetch();
      }
    }
  }
}
