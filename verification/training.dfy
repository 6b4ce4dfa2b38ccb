/**
 * The training sessions screen: the list controller, the add form with its eight draft fields,
 * the edit modal and the delete confirm gate.
 */
module Training {
  import opened Wrappers
  import opened Envelope
  import opened ListController
  import opened ConfirmGate

  /** A listed training session, with the members the screen edits and sends. */
  datatype TrainingRecord = TrainingRecord(
    id: nat,
    trainingSkillId: string,
    trainerId: string,
    trainingCost: string,
    employeeId: string,
    startDate: string,
    endDate: string,
    description: string,
    status: string)

  /** `parseInt(text, 10)`, kept symbolic: the model does not evaluate JavaScript's parse. */
  datatype IntField = ParseInt(text: string)

  /** The add form's eight draft fields. */
  datatype TrainingDraft = TrainingDraft(
    trainer: string,
    skill: string,
    employee: string,
    cost: string,
    startDate: string,
    endDate: string,
    status: string,
    description: string)

  const EmptyDraft := TrainingDraft("", "", "", "", "", "", "", "")

  /** The body of the create request. */
  datatype NewTraining = NewTraining(
    trainerId: IntField,
    trainingSkillId: IntField,
    employeeId: IntField,
    trainingCost: IntField,
    startDate: string,
    endDate: string,
    description: string)

  /** The create request built from the draft; the draft's status is never part of it. */
  function NewTrainingOf(d: TrainingDraft): (p: NewTraining)
    ensures p.startDate == d.startDate && p.endDate == d.endDate && p.description == d.description
    ensures p.trainerId.text == d.trainer && p.trainingSkillId.text == d.skill
    ensures p.employeeId.text == d.employee && p.trainingCost.text == d.cost
  {
    NewTraining(ParseInt(d.trainer), ParseInt(d.skill), ParseInt(d.employee), ParseInt(d.cost),
      d.startDate, d.endDate, d.description)
  }

  /**
   * The status is never sent: drafts that differ at most in status give the same create request.
   * Conversely, drafts that give the same request agree on the fields sent verbatim; the four
   * parsed fields may differ, since `parseInt` maps "7", "07" and "7.9" alike.
   */
  lemma NewTrainingIgnoresStatus(d1: TrainingDraft, d2: TrainingDraft)
    ensures d1.(status := "") == d2.(status := "") ==> NewTrainingOf(d1) == NewTrainingOf(d2)
    ensures NewTrainingOf(d1) == NewTrainingOf(d2) ==>
      d1.startDate == d2.startDate && d1.endDate == d2.endDate && d1.description == d2.description
  {
  }

  /** The body of the update request: the edited record, with four members re-parsed as integers. */
  datatype UpdatedTraining = UpdatedTraining(
    record: TrainingRecord,
    trainerId: IntField,
    trainingSkillId: IntField,
    employeeId: IntField,
    trainingCost: IntField)

  function UpdatedTrainingOf(r: TrainingRecord): (u: UpdatedTraining)
    ensures u.record == r
    ensures u.trainerId.text == r.trainerId && u.trainingSkillId.text == r.trainingSkillId
    ensures u.employeeId.text == r.employeeId && u.trainingCost.text == r.trainingCost
  {
    UpdatedTraining(r, ParseInt(r.trainerId), ParseInt(r.trainingSkillId), ParseInt(r.employeeId),
      ParseInt(r.trainingCost))
  }

  /** The inputs of the edit modal. */
  datatype EditableField = SkillField | TrainerField | CostField | EmployeeField
    | StartField | EndField | DescriptionField

  /** `setEditingTraining({...editingTraining, field: value})`. */
  function WithField(r: TrainingRecord, f: EditableField, value: string): (e: TrainingRecord)
    ensures e.id == r.id && e.status == r.status
    ensures FieldOf(e, f) == value
    ensures forall g :: g != f ==> FieldOf(e, g) == FieldOf(r, g)
  {
    match f
    case SkillField => r.(trainingSkillId := value)
    case TrainerField => r.(trainerId := value)
    case CostField => r.(trainingCost := value)
    case EmployeeField => r.(employeeId := value)
    case StartField => r.(startDate := value)
    case EndField => r.(endDate := value)
    case DescriptionField => r.(description := value)
  }

  function FieldOf(r: TrainingRecord, f: EditableField): string
  {
    match f
    case SkillField => r.trainingSkillId
    case TrainerField => r.trainerId
    case CostField => r.trainingCost
    case EmployeeField => r.employeeId
    case StartField => r.startDate
    case EndField => r.endDate
    case DescriptionField => r.description
  }

  /** The colour of the status badge. */
  datatype Tone = Red | Green

  /** 'Not Started' is red, 'Started' green, anything else red. */
  function BadgeTone(status: string): (t: Tone)
    ensures t == Green <==> status == "Started"
  {
    if status == "Not Started" then Red
    else if status == "Started" then Green
    else Red
  }

  /** `fetchTrainings` starts with `setIsLoading(true)`; `isLoading` starts false. */
  const TrainingConfig := Config(DataKeys, false, true)

  class TrainingScreen {
    const list: ListState<TrainingRecord>
    var showAddForm: bool
    var draft: TrainingDraft
    var deleteGate: Gate
    var editing: Option<TrainingRecord>
    var editOpen: bool

    /** The add form has no status input: only `handleReset` sets the draft's status, to `''`. */
    predicate Valid()
      reads this, list
    {
      && list.cfg == TrainingConfig && list.Valid() && deleteGate.Valid()
      && (editOpen ==> editing.Some?)
      && draft.status == ""
    }

    constructor ()
      ensures Valid() && fresh(list)
      ensures list.View() == Mounted(TrainingConfig)
      ensures !showAddForm && draft == EmptyDraft && deleteGate == Idle
      ensures editing == None && !editOpen
    {
      list := new ListState(TrainingConfig);
      showAddForm, draft, deleteGate := false, EmptyDraft, Idle;
      editing, editOpen := None, false;
    }

    /** `handleAddNewClick`. */
    method AddNew()
      modifies this`showAddForm
      ensures showAddForm
    {
      showAddForm := true;
    }

    /** The add form's Hide button. */
    method HideForm()
      modifies this`showAddForm
      ensures !showAddForm
    {
      showAddForm := false;
    }

    /**
     * The add form's seven inputs, taken together: the draft takes the values of `d`, except the
     * status, which no input of the form sets.
     */
    method EditDraft(d: TrainingDraft)
      requires Valid()
      modifies this`draft
      ensures Valid() && draft == d.(status := "")
    {
      draft := d.(status := draft.status);
    }

    /** `handleReset`: every draft field back to `''`, and the add form hidden. */
    method Reset()
      modifies this`draft, this`showAddForm
      ensures draft == EmptyDraft && !showAddForm
    {
      showAddForm := false;
      draft := draft.(trainer := "", skill := "", employee := "", cost := "");
      draft := draft.(startDate := "", endDate := "", status := "", description := "");
    }

    /**
     * `handleSave`: the create request is built from the draft; on success the draft is reset.
     * Either way loading is cleared and the list is fetched again, which raises loading anew.
     */
    method Save(succeeded: bool) returns (sent: NewTraining)
      requires Valid()
      modifies this`draft, this`showAddForm, list
      ensures Valid()
      ensures sent == NewTrainingOf(old(draft))
      ensures succeeded ==> draft == EmptyDraft && !showAddForm
      ensures !succeeded ==> draft == old(draft) && showAddForm == old(showAddForm)
      ensures list.View() == FetchStarted(TrainingConfig, old(list.View()).(loading := false))
      ensures list.loading && list.issued == old(list.issued) + [list.View().Current()]
    {
      list.SetLoading(true);
      sent := NewTrainingOf(draft);
      if succeeded {
        Reset();
      }
      list.SetLoading(false);
      list.BeginFetch();
    }

    /** `handleDeleteClick(id)`. */
    method DeleteClick(id: nat)
      requires Valid()
      modifies this`deleteGate
      ensures Valid() && deleteGate == old(deleteGate).Request(id)
    {
      deleteGate := deleteGate.Request(id);
    }

    /** The dialog's Cancel button and its close. */
    method CancelDelete()
      requires Valid()
      modifies this`deleteGate
      ensures Valid() && deleteGate == old(deleteGate).Close()
    {
      deleteGate := deleteGate.Close();
    }

    /**
     * `handleConfirmDelete`: the stored id is deleted. On success the list is fetched again and
     * the dialog closes; on failure the dialog stays open. Loading ends false either way, even
     * though the refetch is still outstanding.
     */
    method ConfirmDelete(succeeded: bool) returns (target: nat)
      requires Valid() && deleteGate.open
      modifies this`deleteGate, list
      ensures Valid()
      ensures old(deleteGate).selected == Some(target)
      ensures succeeded ==>
        && deleteGate == old(deleteGate).Close()
        && list.View() == FetchStarted(TrainingConfig, old(list.View())).(loading := false)
      ensures !succeeded ==> deleteGate == old(deleteGate) && list.View() == old(list.View()).(loading := false)
    {
      list.SetLoading(true);
      target := deleteGate.selected.value;
      if succeeded {
        list.BeginFetch();
        deleteGate := deleteGate.Close();
      }
      list.SetLoading(false);
    }

    /** `handleEditClick(training)`. */
    method EditClick(r: TrainingRecord)
      requires Valid()
      modifies this`editing, this`editOpen
      ensures Valid() && editing == Some(r) && editOpen
    {
      editing := Some(r);
      editOpen := true;
    }

    /** One input of the open edit modal changes. */
    method EditField(f: EditableField, value: string)
      requires Valid() && editOpen
      modifies this`editing
      ensures Valid() && editing == Some(WithField(old(editing).value, f, value))
    {
      editing := Some(WithField(editing.value, f, value));
    }

    /** The modal's Close buttons: the edits stay in `editing`. */
    method CloseEdit()
      requires Valid()
      modifies this`editOpen
      ensures Valid() && !editOpen
    {
      editOpen := false;
    }

    /**
     * `handleUpdateSubmit`: nothing happens when no training is being edited. Otherwise the edited
     * record is sent; on success the modal closes and the list is fetched again, on failure the
     * modal stays open with the edits intact.
     */
    method UpdateSubmit(succeeded: bool) returns (sent: Option<UpdatedTraining>)
      requires Valid()
      modifies this`editOpen, list
      ensures Valid()
      ensures old(editing).None? ==> sent == None && editOpen == old(editOpen) && list.View() == old(list.View())
      ensures old(editing).Some? ==> sent == Some(UpdatedTrainingOf(old(editing).value))
      ensures old(editing).Some? && succeeded ==> !editOpen && list.View() == FetchStarted(TrainingConfig, old(list.View()))
      ensures !succeeded ==> editOpen == old(editOpen) && list.View() == old(list.View())
    {
      sent := None;
      if editing.Some? {
        sent := Some(UpdatedTrainingOf(editing.value));
        if succeeded {
          editOpen := false;
          list.BeginFetch();
        }
      }
    }
  }
}
