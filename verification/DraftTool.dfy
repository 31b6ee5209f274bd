/** app/agent/tools/draft_tools.py: the agent's terminal capability, and where its letters'
    facts come from. */
module DraftTool {
  import opened Prelude
  import opened CanonicalJson
  import opened CanonicalOrder
  import opened Registry
  import Protocol
  import Store

  /** The arguments the tool's strict schema admits. */
  datatype DraftArgs = DraftArgs(invoiceId: string, subject: string, body: string, tone: string, rationale: string)

  datatype DraftError =
    | InvoiceNotRead
    | NotDeliverable
    | UnknownTone
    | RationaleRequired
    | ProposalCapReached
    | LetterRejected(report: Json)
    | ColumnRaises(error: ColumnError)
    | DuplicatePendingProposal

  /** What `int(x)` raises: of a text that is no integer, and of a list or a dict. */
  datatype ColumnError = ValueError | TypeError

  const TONES := {"friendly", "firm", "final"}

  /** `review_letter`: a report when the letter breaks a rule, nothing when it does not. */
  type Review = (string, string, Json) -> Option<Json>

  function TextOf(v: Json, key: string): Option<string> {
    match Field(v, key)
    case Some(Str(s)) => Some(s)
    case _ => None
  }

  function ArgsOf(arguments: Json): Option<DraftArgs> {
    if !arguments.Obj? || |arguments.members| != 5 then None
    else
      match (TextOf(arguments, "invoice_id"), TextOf(arguments, "subject"), TextOf(arguments, "body"),
             TextOf(arguments, "tone"), TextOf(arguments, "rationale"))
      case (Some(id), Some(subject), Some(body), Some(tone), Some(rationale)) =>
        Some(DraftArgs(id, subject, body, tone, rationale))
      case _ => None
  }

  /** `x or None`. */
  function OrNull(v: Json): Json {
    if Truthy(v) then v else Null
  }

  /** The stored payload: the letter, and the facts it was built from. */
  function Payload(a: DraftArgs, f: Json): Json {
    Obj([Member("action_type", Str("send_collection_letter")),
         Member("invoice_id", Str(a.invoiceId)),
         Member("invoice_number", OrNull(GetOrNull(f, "invoice_number"))),
         Member("customer_id", GetOrNull(f, "customer_id")),
         Member("customer_name", GetOrNull(f, "customer_name")),
         Member("customer_email", GetOrNull(f, "customer_email")),
         Member("amount_due", GetOrNull(f, "amount_due")),
         Member("amount_display", GetOrNull(f, "amount_display")),
         Member("currency", GetOrNull(f, "currency")),
         Member("due_date", GetOrNull(f, "due_date")),
         Member("days_overdue", GetOrNull(f, "days_overdue")),
         Member("hosted_invoice_url", GetOrNull(f, "hosted_invoice_url")),
         Member("subject", Str(a.subject)),
         Member("body", Str(a.body)),
         Member("tone", Str(a.tone))])
  }

  /** `str(v)` of a plain value. */
  function PyStr(v: Json): string {
    match v
    case Str(s) => s
    case Null => "None"
    case Bool(b) => if b then "True" else "False"
    case _ => Text(false, v)
  }

  /** A row of the proposals table, as the tool writes it. */
  datatype Draft = Draft(payload: Json, rationale: string, invoiceId: string, customerEmail: string)

  function DraftOf(a: DraftArgs, f: Json): Draft {
    Draft(Payload(a, f), a.rationale, a.invoiceId, PyStr(GetOrNull(f, "customer_email")))
  }

  // ---- the integer columns ---------------------------------------------------------------------

  /** A text `int()` reads: perhaps a sign, then digits, with single underscores between them. */
  predicate IsIntText(s: string) {
    var t := Strip(s);
    IsFigures(if t != "" && (t[0] == '+' || t[0] == '-') then t[1..] else t)
  }

  predicate IsFigures(s: string) {
    && s != "" && IsDigit(s[0]) && IsDigit(s[|s| - 1])
    && forall i | 0 <= i < |s| :: IsDigit(s[i]) || (s[i] == '_' && 0 < i < |s| - 1 && IsDigit(s[i - 1]) && IsDigit(s[i + 1]))
  }

  /** What `int(v or 0)` raises, if anything. */
  function IntFault(v: Json): Option<ColumnError> {
    if !Truthy(v) then None
    else
      match v
      case Str(s) => if IsIntText(s) then None else Some(ValueError)
      case Arr(_) => Some(TypeError)
      case Obj(_) => Some(TypeError)
      case _ => None
  }

  /** The amount is converted before the days. */
  function ColumnFault(f: Json): Option<ColumnError> {
    match IntFault(GetOrNull(f, "amount_due"))
    case Some(e) => Some(e)
    case None => IntFault(GetOrNull(f, "days_overdue"))
  }

  // ---- the guards, in order ---------------------------------------------------------------

  /** The rules, each on its own terms, in the order they are applied. */
  predicate Breaks(rule: nat, facts: Facts, count: nat, maxProposals: int, review: Review, taken: bool, a: DraftArgs) {
    match rule
    case 0 => a.invoiceId !in facts
    case 1 => a.invoiceId in facts && !Truthy(GetOrNull(facts[a.invoiceId], "deliverable"))
    case 2 => a.tone !in TONES
    case 3 => Strip(a.rationale) == ""
    case 4 => count >= maxProposals
    case 5 => a.invoiceId in facts && review(a.subject, a.body, facts[a.invoiceId]).Some?
    case 6 => a.invoiceId in facts && ColumnFault(facts[a.invoiceId]).Some?
    case 7 => taken
    case _ => false
  }

  predicate FirstBroken(rule: nat, facts: Facts, count: nat, maxProposals: int, review: Review, taken: bool, a: DraftArgs) {
    && Breaks(rule, facts, count, maxProposals, review, taken, a)
    && forall earlier: nat | earlier < rule :: !Breaks(earlier, facts, count, maxProposals, review, taken, a)
  }

  /** The rule a refusal stands for. */
  function RuleOf(e: DraftError): nat {
    match e
    case InvoiceNotRead => 0
    case NotDeliverable => 1
    case UnknownTone => 2
    case RationaleRequired => 3
    case ProposalCapReached => 4
    case LetterRejected(_) => 5
    case ColumnRaises(_) => 6
    case DuplicatePendingProposal => 7
  }

  predicate AllKept(facts: Facts, count: nat, maxProposals: int, review: Review, taken: bool, a: DraftArgs) {
    forall rule: nat | rule < 8 :: !Breaks(rule, facts, count, maxProposals, review, taken, a)
  }

  /** The outcome of a call: a row exactly when every rule is kept, otherwise the refusal of
      the first rule broken. */
  predicate Judged(facts: Facts, count: nat, maxProposals: int, review: Review, taken: bool, a: DraftArgs,
                   r: Result<Draft, DraftError>)
  {
    match r
    case Success(row) =>
      && AllKept(facts, count, maxProposals, review, taken, a)
      && !Breaks(0, facts, count, maxProposals, review, taken, a) && row == DraftOf(a, facts[a.invoiceId])
    case Failure(e) =>
      && FirstBroken(RuleOf(e), facts, count, maxProposals, review, taken, a)
      && (e.LetterRejected? ==> a.invoiceId in facts && review(a.subject, a.body, facts[a.invoiceId]) == Some(e.report))
      && (e.ColumnRaises? ==> a.invoiceId in facts && ColumnFault(facts[a.invoiceId]) == Some(e.error))
  }

  lemma JudgedOnce(facts: Facts, count: nat, maxProposals: int, review: Review, taken: bool, a: DraftArgs,
                   r: Result<Draft, DraftError>, r': Result<Draft, DraftError>)
    requires Judged(facts, count, maxProposals, review, taken, a, r)
    requires Judged(facts, count, maxProposals, review, taken, a, r')
    ensures r == r'
  {
    if r.Failure? && r'.Failure? {
      var m, n := RuleOf(r.error), RuleOf(r'.error);
      assert Breaks(m, facts, count, maxProposals, review, taken, a) && Breaks(n, facts, count, maxProposals, review, taken, a);
      assert m == n;
    }
  }

  // ---- the one pending proposal per invoice --------------------------------------------------

  /** Whether the partial index refuses the invoice: another run has a pending proposal for it, or
      this run has one that nobody has decided yet. */
  predicate Taken(drafts: seq<Draft>, others: set<string>, decided: set<nat>, invoiceId: string) {
    invoiceId in others || exists i | 0 <= i < |drafts| :: i !in decided && drafts[i].invoiceId == invoiceId
  }

  /** The rows of the run's drafts, and who else is in the queue. */
  ghost predicate QueueHolds(db: Store.Db, ids: seq<string>, drafts: seq<Draft>, others: set<string>, decided: set<nat>) {
    && |ids| == |drafts|
    && (forall i | 0 <= i < |ids| ::
          && ids[i] in db.proposals && db.proposals[ids[i]].invoiceId == drafts[i].invoiceId
          && (i in decided <==> db.proposals[ids[i]].status != Store.Pending))
    && (forall invoice :: invoice in others <==> exists id | id in db.proposals ::
          id !in ids && db.proposals[id].status == Store.Pending && db.proposals[id].invoiceId == invoice)
  }

  /** The tool's duplicate rule is the store's: with the run's drafts and the other rows in the
      queue, a letter is refused exactly when creating its proposal would be. */
  lemma TakenIsTheIndex(db: Store.Db, ids: seq<string>, drafts: seq<Draft>, others: set<string>, decided: set<nat>,
                        invoiceId: string)
    requires QueueHolds(db, ids, drafts, others, decided)
    ensures Taken(drafts, others, decided, invoiceId) <==> Store.InvoiceTaken(db, invoiceId)
  {
    if Store.InvoiceTaken(db, invoiceId) {
      var id :| id in db.proposals && db.proposals[id].invoiceId == invoiceId && db.proposals[id].status == Store.Pending;
      if id in ids {
        var i :| 0 <= i < |ids| && ids[i] == id;
        assert i !in decided && drafts[i].invoiceId == invoiceId;
      }
    }
    if i :| 0 <= i < |drafts| && i !in decided && drafts[i].invoiceId == invoiceId {
      assert ids[i] in db.proposals && db.proposals[ids[i]].status == Store.Pending;
    }
  }

  // ---- what a drafted row holds --------------------------------------------------------------

  const FACT_KEYS := ["customer_id", "customer_name", "customer_email", "amount_due", "amount_display",
                      "currency", "due_date", "days_overdue", "hosted_invoice_url"]

  /** The names in a payload. */
  const PAYLOAD_KEYS := ["action_type", "invoice_id", "invoice_number"] + FACT_KEYS + ["subject", "body", "tone"]

  lemma PayloadKeysDiffer(i: nat, j: nat)
    requires i < j < |PAYLOAD_KEYS|
    ensures PAYLOAD_KEYS[i] != PAYLOAD_KEYS[j]
  {
  }

  lemma PayloadKey(a: DraftArgs, f: Json, i: nat)
    requires i < 15
    ensures Payload(a, f).members[i].key == PAYLOAD_KEYS[i]
  {
  }

  lemma PayloadKeys(a: DraftArgs, f: Json)
    ensures DistinctKeys(Payload(a, f).members)
  {
    var ms := Payload(a, f).members;
    forall i: nat, j: nat | i < j < |ms| ensures ms[i].key != ms[j].key {
      PayloadKeysDiffer(i, j);
      PayloadKey(a, f, i);
      PayloadKey(a, f, j);
    }
  }

  lemma PayloadField(a: DraftArgs, f: Json, i: nat)
    requires i < 15
    ensures var m := Payload(a, f).members[i]; Field(Payload(a, f), m.key) == Some(m.value)
  {
    PayloadKeys(a, f);
    GetPresent(Payload(a, f).members, Payload(a, f).members[i]);
  }

  /** Every fact in a payload is the fact on record for the invoice; nothing the model wrote
      reaches one. */
  lemma PayloadFacts(a: DraftArgs, f: Json, i: nat)
    requires i < |FACT_KEYS|
    ensures Field(Payload(a, f), FACT_KEYS[i]) == Some(GetOrNull(f, FACT_KEYS[i]))
  {
    PayloadField(a, f, i + 3);
  }

  /** The letter's name and the READ layer's name of each fact. */
  const SOURCES := [("customer_id", "customer_id"), ("customer_name", "customer_name"),
                    ("customer_email", "customer_email"), ("amount_due", "amount_due"),
                    ("amount_display", "amount_due_display"), ("currency", "currency"), ("due_date", "due_date"),
                    ("days_overdue", "days_overdue"), ("hosted_invoice_url", "hosted_invoice_url")]

  /** The names in a fact set. */
  const FACT_NAMES := ["invoice_id", "invoice_number"] + FACT_KEYS + ["deliverable", "not_deliverable_reason"]

  lemma FactNamesDiffer(i: nat, j: nat)
    requires i < j < |FACT_NAMES|
    ensures FACT_NAMES[i] != FACT_NAMES[j]
  {
  }

  lemma FactName(row: Json, i: nat)
    requires i < 13
    ensures LetterFacts(row).members[i].key == FACT_NAMES[i]
  {
  }

  lemma FactsKeys(row: Json)
    ensures DistinctKeys(LetterFacts(row).members)
  {
    var ms := LetterFacts(row).members;
    forall i: nat, j: nat | i < j < |ms| ensures ms[i].key != ms[j].key {
      FactNamesDiffer(i, j);
      FactName(row, i);
      FactName(row, j);
    }
  }

  lemma FactsMember(row: Json, i: nat)
    requires i < 13
    ensures var m := LetterFacts(row).members[i]; GetOrNull(LetterFacts(row), m.key) == m.value
  {
    FactsKeys(row);
    GetPresent(LetterFacts(row).members, LetterFacts(row).members[i]);
  }

  lemma FactsNames(row: Json, i: nat)
    requires i < |SOURCES|
    ensures var m := LetterFacts(row).members[i + 2]; m.key == SOURCES[i].0 && m.value == GetOrNull(row, SOURCES[i].1)
  {
  }

  lemma FactsField(row: Json, i: nat)
    requires i < |SOURCES|
    ensures GetOrNull(LetterFacts(row), SOURCES[i].0) == GetOrNull(row, SOURCES[i].1)
  {
    FactsMember(row, i + 2);
    FactsNames(row, i);
  }

  lemma SourceNames(i: nat)
    requires i < |SOURCES|
    ensures FACT_KEYS[i] == SOURCES[i].0
  {
  }

  lemma FactCarried(a: DraftArgs, f: Json, key: string, i: nat, v: Json)
    requires i < |FACT_KEYS| && FACT_KEYS[i] == key && GetOrNull(f, key) == v
    ensures Field(Payload(a, f), key) == Some(v)
  {
    PayloadFacts(a, f, i);
  }

  /** From end to end: each fact of a stored letter is the field of that meaning in the row that
      was read. */
  lemma PayloadFromRow(a: DraftArgs, row: Json, i: nat)
    requires i < |SOURCES|
    ensures Field(Payload(a, LetterFacts(row)), SOURCES[i].0) == Some(GetOrNull(row, SOURCES[i].1))
  {
    SourceNames(i);
    FactsField(row, i);
    FactCarried(a, LetterFacts(row), SOURCES[i].0, i, GetOrNull(row, SOURCES[i].1));
  }

  lemma PayloadLetter(a: DraftArgs, f: Json)
    ensures Field(Payload(a, f), "subject") == Some(Str(a.subject))
    ensures Field(Payload(a, f), "body") == Some(Str(a.body))
    ensures Field(Payload(a, f), "invoice_number") == Some(OrNull(GetOrNull(f, "invoice_number")))
    ensures Field(Payload(a, f), "customer_email") == Some(GetOrNull(f, "customer_email"))
  {
    PayloadField(a, f, 12);
    PayloadField(a, f, 13);
    PayloadField(a, f, 2);
    PayloadField(a, f, 5);
  }

  lemma PayloadValue(a: DraftArgs, f: Json, i: nat)
    requires i < 15
    ensures var v := Payload(a, f).members[i].value;
            v.Str? || v == Null || exists key :: v == GetOrNull(f, key)
  {
    var v := Payload(a, f).members[i].value;
    if i == 2 {
      assert v == Null || v == GetOrNull(f, "invoice_number");
    } else if 3 <= i < 12 {
      assert v == GetOrNull(f, FACT_KEYS[i - 3]);
    }
  }

  lemma PayloadWellFormed(a: DraftArgs, f: Json)
    requires WellFormed(f)
    ensures WellFormed(Payload(a, f))
  {
    var ms := Payload(a, f).members;
    PayloadKeys(a, f);
    FieldsWellFormed(f);
    forall m | m in ms ensures WellFormed(m.value) {
      var i :| 0 <= i < |ms| && ms[i] == m;
      PayloadValue(a, f, i);
    }
    DictWellFormed(ms);
    assert Payload(a, f) == Obj(ms);
  }

  lemma DictWellFormed(ms: seq<Member>)
    requires DistinctKeys(ms) && forall m | m in ms :: WellFormed(m.value)
    ensures WellFormed(Obj(ms))
  {
  }

  lemma NotAText(v: Json)
    ensures Str(PyStr(v)) == v <==> v.Str?
  {
  }

  /** The payload is one the protocol can be started with, and its address is the column's,
      exactly when the address on record is a text: None would be stored as "None". */
  lemma ColumnAgreesWithPayload(a: DraftArgs, f: Json)
    requires WellFormed(f)
    ensures Protocol.LetterPayload(Payload(a, f), DraftOf(a, f).customerEmail)
            <==> GetOrNull(f, "customer_email").Str?
  {
    var payload, email := Payload(a, f), GetOrNull(f, "customer_email");
    PayloadWellFormed(a, f);
    PayloadLetter(a, f);
    NotAText(email);
    SameAddress(payload, email);
  }

  lemma SameAddress(payload: Json, email: Json)
    requires payload.Obj? && WellFormed(payload) && Field(payload, "customer_email") == Some(email)
    ensures Protocol.LetterPayload(payload, PyStr(email)) <==> Str(PyStr(email)) == email
  {
  }

  lemma FieldsWellFormed(f: Json)
    requires WellFormed(f)
    ensures forall key :: WellFormed(GetOrNull(f, key))
  {
    forall key ensures WellFormed(GetOrNull(f, key)) {
      if Field(f, key).Some? { GetFinds(f.members, key); }
    }
  }
}
