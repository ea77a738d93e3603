/** The "Create a New Chatbot" page: an organization draft edited field by
    field, three collections (employees, products, services) whose new
    entries go only at the end, validated and trimmed when they are added,
    and leave only by index, a guarded
    PDF slot, and a submit that validates the draft according to its mode
    and either builds a payload or names the first problem it found. The
    submit never changes the draft. */
module CreateBot {
  import opened Wrappers
  import opened Text
  import opened Browser

  datatype Mode = Automatic | Manual

  /** One collection entry. For an employee `detail` is the role; for a
      product or a service it is the details text. */
  datatype Entry = Entry(name: string, detail: string)

  /** A collection together with the two inputs that feed its "Add" button. */
  datatype EntryList = EntryList(entries: seq<Entry>, newName: string, newDetail: string)

  datatype Kind = Employees | Products | Services

  datatype Draft = Draft(
    botName: string,
    botDescription: string,
    mode: Mode,
    pdfFile: Option<File>,
    orgName: string,
    orgWebsite: string,
    orgIndustry: string,
    orgAbout: string,
    employees: EntryList,
    products: EntryList,
    services: EntryList)

  /** The text inputs of the page. */
  datatype Field =
    | BotName | BotDescription
    | OrgName | OrgWebsite | OrgIndustry | OrgAbout
    | NewName(kind: Kind) | NewDetail(kind: Kind)

  /** What the user can do on the page. */
  datatype Event =
    | Edit(field: Field, value: string)
    | SetMode(mode: Mode)
    | PdfChange(files: seq<File>)
    | Add(kind: Kind)
    | Remove(kind: Kind, index: int)
    | Submit

  /** Why an action was refused; each stands for one error toast. */
  datatype Rejection =
    | EntryRequired(kind: Kind)
    | NotAPdf
    | MissingCommon
    | MissingPdf
    | MissingOrgName
    | MissingProductOrService

  datatype Organization = Organization(
    name: string, website: string, industry: string, about: string,
    employees: seq<Entry>, products: seq<Entry>, services: seq<Entry>)

  /** The object the submit logs. Its `mode` field is the constructor. */
  datatype Payload =
    | AutomaticPayload(name: string, description: string, pdfFileName: string)
    | ManualPayload(name: string, description: string, organization: Organization)

  /** What an event reports besides the next draft. */
  datatype Notice = Quiet | Rejected(reason: Rejection) | Created(payload: Payload)

  datatype Step = Step(next: Draft, notice: Notice)

  const EmptyList := EntryList([], "", "")

  /** The state when the page mounts. */
  const InitialDraft := Draft("", "", Automatic, None, "", "", "", "",
                              EmptyList, EmptyList, EmptyList)

  /** An entry as the add operations store it: both fields present and
      already trimmed. */
  predicate ValidEntry(e: Entry) {
    e.name != [] && e.detail != [] && IsTrimmed(e.name) && IsTrimmed(e.detail)
  }

  predicate ValidEntries(s: seq<Entry>) {
    forall i :: 0 <= i < |s| ==> ValidEntry(s[i])
  }

  /** The draft invariant: every stored entry of every collection is valid,
      and a stored file is a PDF. */
  predicate Inv(d: Draft) {
    && ValidEntries(d.employees.entries)
    && ValidEntries(d.products.entries)
    && ValidEntries(d.services.entries)
    && (d.pdfFile.Some? ==> d.pdfFile.value.mimeType == PdfType)
  }

  /** The collection of kind `k`, with its two add inputs. */
  function ListOf(d: Draft, k: Kind): EntryList {
    match k
    case Employees => d.employees
    case Products => d.products
    case Services => d.services
  }

  /** The draft with collection `k` replaced and the others untouched. */
  function WithList(d: Draft, k: Kind, l: EntryList): (r: Draft)
    ensures ListOf(r, k) == l
    ensures forall k' :: k' != k ==> ListOf(r, k') == ListOf(d, k')
  {
    match k
    case Employees => d.(employees := l)
    case Products => d.(products := l)
    case Services => d.(services := l)
  }

  /** `addEmployee` / `addProduct` / `addService` on one collection. Refused
      (None) exactly when either input is blank after trimming; otherwise
      exactly one entry holding the trimmed inputs goes at the end, the
      earlier entries stay as they were, and both inputs are cleared. */
  function AddEntry(l: EntryList): (r: Option<EntryList>)
    ensures r.None? <==> Blank(l.newName) || Blank(l.newDetail)
    ensures r.Some? ==> && |r.value.entries| == |l.entries| + 1
                        && r.value.entries[..|l.entries|] == l.entries
                        && r.value.entries[|l.entries|] == Entry(Trim(l.newName), Trim(l.newDetail))
                        && r.value.newName == "" && r.value.newDetail == ""
    ensures r.Some? && ValidEntries(l.entries) ==> ValidEntries(r.value.entries)
  {
    if Blank(l.newName) || Blank(l.newDetail) then None
    else
      var e := Entry(Trim(l.newName), Trim(l.newDetail));
      AppendKeepsValid(l.entries, e);
      Some(EntryList(l.entries + [e], "", ""))
  }

  /** Appending a valid entry to valid entries keeps them valid. */
  lemma AppendKeepsValid(s: seq<Entry>, e: Entry)
    ensures ValidEntries(s) && ValidEntry(e) ==> ValidEntries(s + [e])
  {
    assert forall j :: 0 <= j < |s| ==> (s + [e])[j] == s[j];
  }

  /** `prev.filter((_, i) => i !== index)`: keeps, in order, every element
      whose position is not `index`. Exactly one element goes when `index` is
      a position of `s`; otherwise nothing changes. */
  function RemoveIndex<T>(s: seq<T>, index: int): (r: seq<T>)
    ensures 0 <= index < |s| ==> && |r| == |s| - 1
                                 && (forall j :: 0 <= j < index ==> r[j] == s[j])
                                 && (forall j :: index <= j < |r| ==> r[j] == s[j + 1])
    ensures !(0 <= index < |s|) ==> r == s
  {
    if s == [] then []
    else (if index == 0 then [] else [s[0]]) + RemoveIndex(s[1..], index - 1)
  }

  /** `removeEmployee` / `removeProduct` / `removeService`: only the entries
      change; the two inputs are untouched. */
  function RemoveEntry(l: EntryList, index: int): (r: EntryList)
    ensures r.entries == RemoveIndex(l.entries, index)
    ensures r.newName == l.newName && r.newDetail == l.newDetail
    ensures ValidEntries(l.entries) ==> ValidEntries(r.entries)
    ensures forall j :: 0 <= j < |r.entries| ==> r.entries[j] in l.entries
  {
    var r := l.(entries := RemoveIndex(l.entries, index));
    assert forall j :: 0 <= j < |r.entries| ==>
      r.entries[j] == l.entries[if 0 <= index <= j then j + 1 else j];
    r
  }

  /** `handlePdfChange`: the slot takes the first selected file only when its
      type is exactly `application/pdf`. Any other file is refused and the
      previous file stays; no selection changes nothing and reports nothing. */
  function PdfChangeStep(d: Draft, files: seq<File>): (r: Step)
    ensures r.next.pdfFile == (if files != [] && files[0].mimeType == PdfType then Some(files[0]) else d.pdfFile)
    ensures r.next == d.(pdfFile := r.next.pdfFile)
    ensures r.notice == (if files != [] && files[0].mimeType != PdfType then Rejected(NotAPdf) else Quiet)
  {
    match FirstFile(files)
    case Some(file) =>
      if file.mimeType == PdfType then Step(d.(pdfFile := Some(file)), Quiet)
      else Step(d, Rejected(NotAPdf))
    case None => Step(d, Quiet)
  }

  /** `handleSubmit`: the common fields are checked first whatever the mode;
      then automatic mode needs a stored PDF, and manual mode needs an
      organization name and then at least one product or service (employees
      do not count). A manual payload carries the four organization fields
      trimmed and the three collections exactly as stored. */
  function SubmitDraft(d: Draft): (r: Result<Payload, Rejection>)
    ensures r.Success? <==>
              && !Blank(d.botName) && !Blank(d.botDescription)
              && (if d.mode == Automatic then d.pdfFile.Some?
                  else !Blank(d.orgName) && (d.products.entries != [] || d.services.entries != []))
    ensures Blank(d.botName) || Blank(d.botDescription) ==> r == Failure(MissingCommon)
    ensures r.Success? ==> && !Blank(d.botName) && !Blank(d.botDescription)
                           && r.value.name == Trim(d.botName)
                           && r.value.description == Trim(d.botDescription)
                           && (r.value.AutomaticPayload? <==> d.mode == Automatic)
    ensures d.mode == Automatic && !Blank(d.botName) && !Blank(d.botDescription) ==>
              (d.pdfFile.None? <==> r == Failure(MissingPdf))
              && (r.Success? ==> r.value.pdfFileName == d.pdfFile.value.name)
    ensures d.mode == Manual && !Blank(d.botName) && !Blank(d.botDescription) ==>
              && (Blank(d.orgName) <==> r == Failure(MissingOrgName))
              && ((!Blank(d.orgName) && d.products.entries == [] && d.services.entries == [])
                    <==> r == Failure(MissingProductOrService))
              && (r.Success? ==>
                    r.value.organization ==
                      Organization(Trim(d.orgName), Trim(d.orgWebsite), Trim(d.orgIndustry),
                                   Trim(d.orgAbout), d.employees.entries,
                                   d.products.entries, d.services.entries))
  {
    if Blank(d.botName) || Blank(d.botDescription) then
      Failure(MissingCommon)
    else if d.mode == Automatic then
      match d.pdfFile
      case None => Failure(MissingPdf)
      case Some(file) => Success(AutomaticPayload(Trim(d.botName), Trim(d.botDescription), file.name))
    else if Blank(d.orgName) then
      Failure(MissingOrgName)
    else if |d.products.entries| == 0 && |d.services.entries| == 0 then
      Failure(MissingProductOrService)
    else
      Success(ManualPayload(Trim(d.botName), Trim(d.botDescription),
        Organization(Trim(d.orgName), Trim(d.orgWebsite), Trim(d.orgIndustry), Trim(d.orgAbout),
                     d.employees.entries, d.products.entries, d.services.entries)))
  }

  /** The current text of one input of the page. */
  function TextOf(d: Draft, f: Field): string {
    match f
    case BotName => d.botName
    case BotDescription => d.botDescription
    case OrgName => d.orgName
    case OrgWebsite => d.orgWebsite
    case OrgIndustry => d.orgIndustry
    case OrgAbout => d.orgAbout
    case NewName(k) => ListOf(d, k).newName
    case NewDetail(k) => ListOf(d, k).newDetail
  }

  /** Typing into one of the text inputs: that input takes the new value and
      nothing else changes; in particular no stored entry. */
  function EditField(d: Draft, f: Field, v: string): (r: Draft)
    ensures TextOf(r, f) == v
    ensures forall g :: g != f ==> TextOf(r, g) == TextOf(d, g)
    ensures r.mode == d.mode && r.pdfFile == d.pdfFile
    ensures forall k :: ListOf(r, k).entries == ListOf(d, k).entries
  {
    match f
    case BotName => d.(botName := v)
    case BotDescription => d.(botDescription := v)
    case OrgName => d.(orgName := v)
    case OrgWebsite => d.(orgWebsite := v)
    case OrgIndustry => d.(orgIndustry := v)
    case OrgAbout => d.(orgAbout := v)
    case NewName(k) => WithList(d, k, ListOf(d, k).(newName := v))
    case NewDetail(k) => WithList(d, k, ListOf(d, k).(newDetail := v))
  }

  /** An "Add" button: refused, changing nothing and naming the collection,
      exactly when an input is blank after trimming; otherwise only that
      collection changes, to `AddEntry`'s result, and it stays valid. */
  function AddStep(d: Draft, k: Kind): (r: Step)
    ensures r.next == WithList(d, k, ListOf(r.next, k))
    ensures r.notice == Rejected(EntryRequired(k)) <==>
              Blank(ListOf(d, k).newName) || Blank(ListOf(d, k).newDetail)
    ensures AddEntry(ListOf(d, k)).Some? ==> ListOf(r.next, k) == AddEntry(ListOf(d, k)).value
    ensures r.notice == Rejected(EntryRequired(k)) <==> r.next == d
    ensures r.notice == Rejected(EntryRequired(k)) || r.notice == Quiet
    ensures ValidEntries(ListOf(d, k).entries) ==> ValidEntries(ListOf(r.next, k).entries)
  {
    match AddEntry(ListOf(d, k))
    case None => Step(d, Rejected(EntryRequired(k)))
    case Some(l) =>
      var next := WithList(d, k, l);
      assert |ListOf(next, k).entries| != |ListOf(d, k).entries|;
      Step(next, Quiet)
  }

  /** A "Remove" button: its own collection becomes `RemoveEntry`'s result,
      nothing else changes, and the collection stays valid. */
  function RemoveStep(d: Draft, k: Kind, index: int): (r: Step)
    ensures r.next == WithList(d, k, ListOf(r.next, k))
    ensures ListOf(r.next, k) == RemoveEntry(ListOf(d, k), index)
    ensures ValidEntries(ListOf(d, k).entries) ==> ValidEntries(ListOf(r.next, k).entries)
    ensures r.notice == Quiet
  {
    Step(WithList(d, k, RemoveEntry(ListOf(d, k), index)), Quiet)
  }

  /** The submit button: the draft stays exactly as it was, and the notice
      carries the payload or the rejection. */
  function SubmitStep(d: Draft): (r: Step)
    ensures r.next == d
    ensures r.notice.Created? <==> SubmitDraft(d).Success?
    ensures r.notice.Created? ==> r.notice.payload == SubmitDraft(d).value
    ensures r.notice.Rejected? ==> r.notice.reason == SubmitDraft(d).error
    ensures SubmitDraft(d).Failure? ==> r.notice == Rejected(SubmitDraft(d).error)
  {
    match SubmitDraft(d)
    case Success(p) => Step(d, Created(p))
    case Failure(e) => Step(d, Rejected(e))
  }

  /** One event on the page. Only a submit can report a payload, and a mode
      switch changes only the mode. */
  function Handle(d: Draft, ev: Event): (r: Step)
    ensures ev.SetMode? ==> r.next == d.(mode := ev.mode) && r.notice == Quiet
    ensures !ev.Submit? ==> !r.notice.Created?
  {
    match ev
    case Edit(f, v) => Step(EditField(d, f, v), Quiet)
    case SetMode(m) => Step(d.(mode := m), Quiet)
    case PdfChange(files) => PdfChangeStep(d, files)
    case Add(k) => AddStep(d, k)
    case Remove(k, i) => RemoveStep(d, k, i)
    case Submit => SubmitStep(d)
  }

  /** The invariant is the validity of each collection in turn, plus the
      type of the stored file. */
  lemma InvByKind(d: Draft)
    ensures Inv(d) <==> && (forall k :: ValidEntries(ListOf(d, k).entries))
                        && (d.pdfFile.Some? ==> d.pdfFile.value.mimeType == PdfType)
  {
    assert ListOf(d, Employees) == d.employees;
    assert ListOf(d, Products) == d.products;
    assert ListOf(d, Services) == d.services;
  }

  /** Every event keeps the draft invariant. */
  lemma HandlePreservesInv(d: Draft, ev: Event)
    requires Inv(d)
    ensures Inv(Handle(d, ev).next)
  {
    var next := Handle(d, ev).next;
    InvByKind(d);
    InvByKind(next);
    match ev
    case Add(k) =>
      assert ValidEntries(ListOf(next, k).entries);
    case Remove(k, i) =>
      assert ValidEntries(ListOf(next, k).entries);
    case Edit(f, v) =>
      assert next.pdfFile == d.pdfFile;
      assert forall k' :: ListOf(next, k').entries == ListOf(d, k').entries;
    case PdfChange(files) =>
    case SetMode(m) =>
    case Submit =>
  }

  /** The draft after a sequence of events, in order. */
  function Run(d: Draft, evs: seq<Event>): Draft
    decreases |evs|
  {
    if evs == [] then d else Run(Handle(d, evs[0]).next, evs[1..])
  }

  /** The draft invariant holds after any sequence of events. */
  lemma {:induction false} RunPreservesInv(d: Draft, evs: seq<Event>)
    requires Inv(d)
    ensures Inv(Run(d, evs))
    decreases |evs|
  {
    if evs != [] {
      HandlePreservesInv(d, evs[0]);
      RunPreservesInv(Handle(d, evs[0]).next, evs[1..]);
    }
  }

  /** Every draft reachable from the mounted page satisfies the invariant. */
  lemma ReachableDraftsAreValid(evs: seq<Event>)
    ensures Inv(Run(InitialDraft, evs))
  {
    RunPreservesInv(InitialDraft, evs);
  }

  /** An accepted add followed by a remove at the list's previous length
      gives back the original entries. */
  lemma AddThenRemoveRestores(l: EntryList)
    ensures AddEntry(l).Some? ==> RemoveEntry(AddEntry(l).value, |l.entries|).entries == l.entries
  {
  }

  /** Switching mode and switching back restores the draft: the inactive
      mode's data is never cleared. */
  lemma ModeSwitchIsNonDestructive(d: Draft, m: Mode)
    ensures Handle(Handle(d, SetMode(m)).next, SetMode(d.mode)).next == d
  {
  }

  /** Two drafts that agree on the common fields, the mode and the active
      mode's data submit to the same result: the inactive mode's data and
      the pending add inputs never matter. */
  predicate SameActiveData(d1: Draft, d2: Draft) {
    && d1.botName == d2.botName && d1.botDescription == d2.botDescription
    && d1.mode == d2.mode
    && (d1.mode == Automatic ==> d1.pdfFile == d2.pdfFile)
    && (d1.mode == Manual ==>
          && d1.orgName == d2.orgName && d1.orgWebsite == d2.orgWebsite
          && d1.orgIndustry == d2.orgIndustry && d1.orgAbout == d2.orgAbout
          && d1.employees.entries == d2.employees.entries
          && d1.products.entries == d2.products.entries
          && d1.services.entries == d2.services.entries)
  }

  lemma SubmitDependsOnlyOnActiveData(d1: Draft, d2: Draft)
    requires SameActiveData(d1, d2)
    ensures SubmitDraft(d1) == SubmitDraft(d2)
  {
  }

  /** Whether a manual submit succeeds never depends on the employees. */
  lemma EmployeesDoNotGateSubmit(d: Draft, staff: seq<Entry>)
    requires d.mode == Manual
    ensures SubmitDraft(d).Success? == SubmitDraft(d.(employees := d.employees.(entries := staff))).Success?
  {
  }

  /** A manual payload built from a reachable draft holds only valid entries
      and at least one product or service. */
  lemma ManualPayloadIsWellFormed(d: Draft)
    requires Inv(d) && d.mode == Manual
    ensures SubmitDraft(d).Success? ==>
            var o := SubmitDraft(d).value.organization;
            && ValidEntries(o.employees) && ValidEntries(o.products) && ValidEntries(o.services)
            && (o.products != [] || o.services != [])
            && o.name != []
  {
  }

  /** An automatic submit from a reachable draft names a file whose type was
      checked to be `application/pdf` when it was chosen. */
  lemma AutomaticPayloadNamesAPdf(d: Draft)
    requires Inv(d) && d.mode == Automatic
    ensures SubmitDraft(d).Success? ==>
              d.pdfFile.Some? && d.pdfFile.value.mimeType == PdfType
              && SubmitDraft(d).value.pdfFileName == d.pdfFile.value.name
  {
  }

  /** The draft of `ManualScenario` after its product is added. */
  const ScenarioAdded := InitialDraft.(botName := "Bot", botDescription := "Desc", mode := Manual,
                                       orgName := "Acme",
                                       products := EntryList([Entry("Widget", "Nice")], "", ""))

  lemma ScenarioAddAccepted(typed: Draft)
    requires typed == ScenarioAdded.(products := EntryList([], "Widget", "Nice"))
    ensures AddStep(typed, Products).next == ScenarioAdded
  {
    assert !IsWhitespace("Widget"[0]) && !IsWhitespace("Nice"[0]);
    assert Trim("Widget") == "Widget" by {
      assert IsTrimmed("Widget");
    }
    assert Trim("Nice") == "Nice" by {
      assert IsTrimmed("Nice");
    }
    assert AddEntry(typed.products) == Some(ScenarioAdded.products);
    assert ListOf(typed, Products) == typed.products;
    assert WithList(typed, Products, ScenarioAdded.products) == ScenarioAdded;
  }

  lemma ScenarioSubmitAccepted()
    ensures SubmitDraft(ScenarioAdded).Success?
  {
    assert !IsWhitespace("Bot"[0]) && !IsWhitespace("Desc"[0]) && !IsWhitespace("Acme"[0]);
  }

  /** A manual draft with a bot name, a description, an organization name
      and a product typed into the product inputs: adding the product and
      submitting yields a payload that holds it, and the page keeps the
      whole draft afterwards, since the submit resets nothing. */
  lemma ManualScenario(typed: Draft)
    requires typed == ScenarioAdded.(products := EntryList([], "Widget", "Nice"))
    ensures var added := AddStep(typed, Products).next;
            && added.products.entries == [Entry("Widget", "Nice")]
            && SubmitStep(added).notice.Created?
            && SubmitStep(added).notice.payload.organization.products == [Entry("Widget", "Nice")]
            && SubmitStep(added).next == added
  {
    ScenarioAddAccepted(typed);
    ScenarioSubmitAccepted();
  }
}
