/** The create/edit lead form: its initial state, the prefill from a lead
    loaded for editing, the change handlers, the payload sent on submit and
    where a successful save navigates. */
module LeadForm {
  import opened CrmModel

  /** A populated agent document as the form sees it: `id` is present only
      when the server adds that virtual field; `_id` always is. */
  datatype AgentDocument = AgentDocument(id: Option<string>, dbId: Id, name: string)

  /** The form's salesAgent value: the select's text, or, after a prefill
      from a populated agent without a truthy `id`, the document itself. */
  datatype AgentField = AgentText(text: string) | AgentObject(doc: AgentDocument)

  /** The form's timeToClose value: what was typed into the number input, or
      the number the loaded lead carried. */
  datatype TimeToCloseField = Entered(text: string) | Fetched(days: int)

  datatype FormData = FormData(
    name: string,
    source: string,
    salesAgent: AgentField,
    status: string,
    tags: seq<string>,
    timeToClose: TimeToCloseField,
    priority: string)

  const DefaultStatus: string := "New"
  const DefaultPriority: string := "Medium"

  /** The `formData` state of a freshly mounted form. */
  const InitialForm: FormData :=
    FormData("", "", AgentText(""), DefaultStatus, [], Entered(""), DefaultPriority)

  /** A lead's `salesAgent` as fetched: absent or null, a plain string, or a
      populated document. */
  datatype LoadedAgent = NoAgent | AgentString(s: string) | AgentDoc(doc: AgentDocument)

  /** A lead as fetched for editing. `None` is an absent or null field. */
  datatype LoadedLead = LoadedLead(
    name: Option<string>,
    source: Option<string>,
    salesAgent: LoadedAgent,
    status: Option<string>,
    tags: Option<seq<string>>,
    timeToClose: Option<int>,
    priority: Option<string>)

  /** JavaScript `v || d` for a string field: the empty string is falsy. */
  function OrDefault(v: Option<string>, d: string): (r: string)
    ensures r == d <==> v.None? || v.value == "" || v.value == d
    ensures r != d ==> v == Some(r)
  {
    if v.Some? && v.value != "" then v.value else d
  }

  /** `salesAgent?.id || salesAgent || ""`. */
  function PrefillAgent(a: LoadedAgent): (r: AgentField)
    ensures a.AgentDoc? && a.doc.id.Some? && a.doc.id.value != "" ==> r == AgentText(a.doc.id.value)
    ensures a.AgentDoc? && (a.doc.id.None? || a.doc.id.value == "") ==> r == AgentObject(a.doc)
    ensures !a.AgentDoc? ==> r == AgentText(if a.AgentString? then a.s else "")
    ensures r.AgentObject? ==> a.AgentDoc?
  {
    match a
    case NoAgent => AgentText("")
    case AgentString(s) => AgentText(s)
    case AgentDoc(doc) =>
      if doc.id.Some? && doc.id.value != "" then AgentText(doc.id.value) else AgentObject(doc)
  }

  /** The form state set from a lead loaded for editing: each falsy field
      takes the initial form's default. */
  function Prefill(lead: LoadedLead): (f: FormData)
    ensures f.name == OrDefault(lead.name, InitialForm.name)
    ensures f.source == OrDefault(lead.source, InitialForm.source)
    ensures f.salesAgent == PrefillAgent(lead.salesAgent)
    ensures f.status == OrDefault(lead.status, InitialForm.status)
    ensures f.tags == if lead.tags.Some? then lead.tags.value else InitialForm.tags
    ensures f.timeToClose == if lead.timeToClose.Some? && lead.timeToClose.value != 0
                             then Fetched(lead.timeToClose.value) else InitialForm.timeToClose
    ensures f.priority == OrDefault(lead.priority, InitialForm.priority)
  {
    FormData(
      OrDefault(lead.name, ""),
      OrDefault(lead.source, ""),
      PrefillAgent(lead.salesAgent),
      OrDefault(lead.status, "New"),
      match lead.tags case Some(t) => t case None => [],
      if lead.timeToClose.Some? && lead.timeToClose.value != 0 then Fetched(lead.timeToClose.value) else Entered(""),
      OrDefault(lead.priority, "Medium"))
  }

  /** A lead with every field falsy prefills exactly the initial form. */
  lemma PrefillOfEmptyLead()
    ensures Prefill(LoadedLead(None, None, NoAgent, None, None, None, None)) == InitialForm
  {
  }

  /** One option of the tags multi-select. */
  datatype SelectOption = SelectOption(value: string, selected: bool)

  function OptionValues(options: seq<SelectOption>): (vs: seq<string>)
    ensures |vs| == |options|
    ensures forall i :: 0 <= i < |options| ==> vs[i] == options[i].value
  {
    seq(|options|, i requires 0 <= i < |options| => options[i].value)
  }

  /** The values of the selected options, in option order. */
  function SelectedValues(options: seq<SelectOption>): (r: seq<string>)
    ensures IsSubsequence(r, OptionValues(options))
  {
    if options == [] then []
    else
      var rest := SelectedValues(options[1..]);
      assert OptionValues(options)[1..] == OptionValues(options[1..]);
      if options[0].selected then [options[0].value] + rest else rest
  }

  /** A value is among the selected tags exactly when some selected option
      carries it. */
  lemma {:induction false} SelectedValuesMembers(options: seq<SelectOption>)
    ensures forall i :: 0 <= i < |options| && options[i].selected ==> options[i].value in SelectedValues(options)
    ensures forall v :: v in SelectedValues(options) ==>
      exists i :: 0 <= i < |options| && options[i].selected && options[i].value == v
  {
    if options != [] {
      var rest := options[1..];
      SelectedValuesMembers(rest);
      var r := SelectedValues(options);
      forall i | 0 <= i < |options| && options[i].selected ensures options[i].value in r {
        if i > 0 {
          assert rest[i - 1] == options[i];
        }
      }
      forall v | v in r ensures exists i :: 0 <= i < |options| && options[i].selected && options[i].value == v {
        if v in SelectedValues(rest) {
          var j :| 0 <= j < |rest| && rest[j].selected && rest[j].value == v;
          assert options[j + 1] == rest[j];
        }
      }
    }
  }

  lemma {:induction false} SelectedValuesAppend(a: seq<SelectOption>, b: seq<SelectOption>)
    ensures SelectedValues(a + b) == SelectedValues(a) + SelectedValues(b)
  {
    if a == [] {
      assert a + b == b;
    } else {
      assert (a + b)[1..] == a[1..] + b;
      SelectedValuesAppend(a[1..], b);
    }
  }

  /** The loop of `handleTagChange`: push the value of each selected option. */
  method SelectedTags(options: seq<SelectOption>) returns (selectedTags: seq<string>)
    ensures selectedTags == SelectedValues(options)
  {
    selectedTags := [];
    var i := 0;
    while i < |options|
      invariant 0 <= i <= |options|
      invariant selectedTags == SelectedValues(options[..i])
    {
      assert options[..i + 1] == options[..i] + [options[i]];
      SelectedValuesAppend(options[..i], [options[i]]);
      assert [options[i]][1..] == [];
      if options[i].selected {
        selectedTags := selectedTags + [options[i].value];
      }
      i := i + 1;
    }
    assert options[..i] == options;
  }

  /** The inputs wired to `handleInputChange`, by their `name` attribute. */
  datatype InputName = Name | Source | SalesAgent | Status | TimeToClose | Priority

  /** The payload sent to the server. `timeToClose` is `None` where
      `parseInt` gives NaN. */
  datatype SubmitData = SubmitData(
    name: string,
    source: string,
    salesAgent: AgentField,
    status: string,
    tags: seq<string>,
    timeToClose: Option<int>,
    priority: string)

  /** `parseInt(formData.timeToClose)`: a number the lead was loaded with is
      an integer already and comes back unchanged; typed text goes through
      `parseInt`, which is given as `parse`. */
  function ParsedTimeToClose(t: TimeToCloseField, parse: string -> Option<int>): (r: Option<int>)
    ensures t.Fetched? ==> r == Some(t.days)
    ensures t.Entered? ==> r == parse(t.text)
  {
    match t
    case Entered(text) => parse(text)
    case Fetched(days) => Some(days)
  }

  /** `submitData`: every field copied as it is, except `timeToClose`. */
  function ToSubmitData(form: FormData, parse: string -> Option<int>): (d: SubmitData)
    ensures d.name == form.name && d.source == form.source && d.salesAgent == form.salesAgent
    ensures d.status == form.status && d.tags == form.tags && d.priority == form.priority
    ensures d.timeToClose == ParsedTimeToClose(form.timeToClose, parse)
  {
    SubmitData(form.name, form.source, form.salesAgent, form.status, form.tags,
      ParsedTimeToClose(form.timeToClose, parse), form.priority)
  }

  /** The payload `handleSubmit` builds from an untouched edit form carries
      what was loaded, field by field, wherever the loaded value was truthy;
      a falsy value becomes the form's default instead, and a `timeToClose`
      of 0 goes through `parseInt("")`. */
  lemma UnchangedEditResubmits(lead: LoadedLead, parse: string -> Option<int>)
    ensures var d := ToSubmitData(Prefill(lead), parse);
      && (lead.name.Some? && lead.name.value != "" ==> d.name == lead.name.value)
      && (lead.source.Some? && lead.source.value != "" ==> d.source == lead.source.value)
      && (lead.status.Some? && lead.status.value != "" ==> d.status == lead.status.value)
      && (lead.status.None? ==> d.status == DefaultStatus)
      && (lead.priority.Some? && lead.priority.value != "" ==> d.priority == lead.priority.value)
      && (lead.priority.None? ==> d.priority == DefaultPriority)
      && (lead.tags.Some? ==> d.tags == lead.tags.value)
      && (lead.salesAgent.AgentString? ==> d.salesAgent == AgentText(lead.salesAgent.s))
      && (lead.timeToClose.Some? && lead.timeToClose.value != 0 ==> d.timeToClose == lead.timeToClose)
      && (lead.timeToClose.None? || lead.timeToClose == Some(0) ==> d.timeToClose == parse(""))
  {
  }

  /** `Boolean(id)` for the route parameter. */
  predicate IsEdit(leadId: Option<string>) {
    leadId.Some? && leadId.value != ""
  }

  /** Where a successful save goes: the lead's page when editing, the lead
      list when creating. */
  function NavigationTarget(leadId: Option<string>): (path: string)
    ensures IsEdit(leadId) ==> path == "/leads/" + leadId.value
    ensures !IsEdit(leadId) ==> path == "/leads"
  {
    if IsEdit(leadId) then "/leads/" + leadId.value else "/leads"
  }

  /** The two modes never navigate to the same place, and an edit returns to
      the page of the lead it edited. */
  lemma NavigationDistinguishesModes(leadId: Option<string>, other: Option<string>)
    requires IsEdit(leadId)
    ensures NavigationTarget(leadId) != NavigationTarget(None)
    ensures IsEdit(other) ==> (NavigationTarget(leadId) == NavigationTarget(other) <==> leadId == other)
  {
    assert |NavigationTarget(leadId)| > |"/leads"|;
    if IsEdit(other) && NavigationTarget(leadId) == NavigationTarget(other) {
      var p := NavigationTarget(leadId);
      assert leadId.value == p[7..];
      assert other.value == p[7..];
    }
  }

  /** The fallback alert when the server gives no error message. */
  const SaveFailedMessage: string := "Failed to save lead. Please check your input and try again."

  /** How the save request ended: saved, or failed with the server's
      `error` text if the response carried one (`None`: absent or null). */
  datatype SaveOutcome = Saved | SaveFailed(serverError: Option<string>)

  /** The request `handleSubmit` sends: an update of the lead being edited
      or the creation of a new one. */
  datatype SaveRequest = Update(id: string, data: SubmitData) | Create(data: SubmitData)

  class LeadFormState {
    /** The `id` route parameter. */
    const leadId: Option<string>
    var formData: FormData
    var loading: bool

    constructor (leadId: Option<string>)
      ensures this.leadId == leadId
      ensures formData == InitialForm && !loading
    {
      this.leadId := leadId;
      formData := InitialForm;
      loading := false;
    }

    /** The edit-mode fetch succeeded: the form takes the loaded lead. */
    method LoadForEdit(lead: LoadedLead)
      requires IsEdit(leadId)
      modifies this`formData
      ensures formData == Prefill(lead)
    {
      formData := Prefill(lead);
    }

    /** `handleInputChange`: the named field takes the input's value and no
        other field changes. */
    method HandleInputChange(field: InputName, value: string)
      modifies this`formData
      ensures formData.name == if field == Name then value else old(formData.name)
      ensures formData.source == if field == Source then value else old(formData.source)
      ensures formData.salesAgent == if field == SalesAgent then AgentText(value) else old(formData.salesAgent)
      ensures formData.status == if field == Status then value else old(formData.status)
      ensures formData.timeToClose == if field == TimeToClose then Entered(value) else old(formData.timeToClose)
      ensures formData.priority == if field == Priority then value else old(formData.priority)
      ensures formData.tags == old(formData.tags)
    {
      match field
      case Name => formData := formData.(name := value);
      case Source => formData := formData.(source := value);
      case SalesAgent => formData := formData.(salesAgent := AgentText(value));
      case Status => formData := formData.(status := value);
      case TimeToClose => formData := formData.(timeToClose := Entered(value));
      case Priority => formData := formData.(priority := value);
    }

    /** `handleTagChange`: the tags become the selected options' values in
        option order; nothing else changes. */
    method HandleTagChange(options: seq<SelectOption>)
      modifies this`formData
      ensures formData == old(formData).(tags := SelectedValues(options))
    {
      var selectedTags := SelectedTags(options);
      formData := formData.(tags := selectedTags);
    }

    /** The first half of `handleSubmit`, up to the request: `loading` is
        set and the request carries the converted form. The browser's
        validation of the form, which decides whether `handleSubmit` runs at
        all, is not part of this method. */
    method BeginSubmit(parse: string -> Option<int>) returns (request: SaveRequest)
      modifies this`loading
      ensures loading
      ensures IsEdit(leadId) ==> request == Update(leadId.value, ToSubmitData(formData, parse))
      ensures !IsEdit(leadId) ==> request == Create(ToSubmitData(formData, parse))
    {
      loading := true;
      var data := ToSubmitData(formData, parse);
      if IsEdit(leadId) {
        request := Update(leadId.value, data);
      } else {
        request := Create(data);
      }
    }

    /** The second half: a save navigates away, a failure alerts with the
        server's message or the fallback; `loading` clears either way. */
    method FinishSubmit(outcome: SaveOutcome) returns (navigateTo: Option<string>, alertText: Option<string>)
      modifies this`loading
      ensures !loading
      ensures outcome.Saved? ==> navigateTo == Some(NavigationTarget(leadId)) && alertText.None?
      ensures outcome.SaveFailed? ==> navigateTo.None?
      ensures outcome.SaveFailed? && outcome.serverError.Some? && outcome.serverError.value != ""
        ==> alertText == Some("Error: " + outcome.serverError.value)
      ensures outcome.SaveFailed? && (outcome.serverError.None? || outcome.serverError.value == "")
        ==> alertText == Some(SaveFailedMessage)
    {
      match outcome {
        case Saved =>
          navigateTo := Some(NavigationTarget(leadId));
          alertText := None;
        case SaveFailed(serverError) =>
          navigateTo := None;
          alertText := if serverError.Some? && serverError.value != ""
            then Some("Error: " + serverError.value) else Some(SaveFailedMessage);
      }
      loading := false;
    }
  }
}
