/** The draft tool spelled out: which names its arguments, its facts and its letters have, which
    refusal each rule earns and in which order, and what the integer columns take. */
module LetterForm {
  import opened Prelude
  import opened CanonicalJson
  import opened CanonicalOrder
  import opened Registry
  import opened DraftTool

  // ---- what is read off a row, and what is written in a letter -----------------------------------

  lemma FactField(row: Json, i: nat)
    requires i < 13
    ensures var m := LetterFacts(row).members[i]; Field(LetterFacts(row), m.key) == Some(m.value)
  {
    FactsKeys(row);
    GetPresent(LetterFacts(row).members, LetterFacts(row).members[i]);
  }

  lemma FactsInvoice(row: Json)
    ensures var v := LetterFacts(row);
            && Field(v, "invoice_id") == Some(Field(row, "id").GetOr(Null))
            && Field(v, "invoice_number") == Some(Field(row, "number").GetOr(Null))
  {
    FactField(row, 0);
    FactField(row, 1);
  }

  lemma FactsCustomer(row: Json)
    ensures var v := LetterFacts(row);
            && Field(v, "customer_id") == Some(Field(row, "customer_id").GetOr(Null))
            && Field(v, "customer_name") == Some(Field(row, "customer_name").GetOr(Null))
            && Field(v, "customer_email") == Some(Field(row, "customer_email").GetOr(Null))
  {
    FactField(row, 2);
    FactField(row, 3);
    FactField(row, 4);
  }

  lemma FactsAmount(row: Json)
    ensures var v := LetterFacts(row);
            && Field(v, "amount_due") == Some(Field(row, "amount_due").GetOr(Null))
            && Field(v, "amount_display") == Some(Field(row, "amount_due_display").GetOr(Null))
  {
    FactField(row, 5);
    FactField(row, 6);
  }

  lemma FactsCurrency(row: Json)
    ensures var v := LetterFacts(row);
            && Field(v, "currency") == Some(Field(row, "currency").GetOr(Null))
  {
    FactField(row, 7);
  }

  lemma FactsDates(row: Json)
    ensures var v := LetterFacts(row);
            && Field(v, "due_date") == Some(Field(row, "due_date").GetOr(Null))
            && Field(v, "days_overdue") == Some(Field(row, "days_overdue").GetOr(Null))
  {
    FactField(row, 8);
    FactField(row, 9);
  }

  lemma FactsLink(row: Json)
    ensures var v := LetterFacts(row);
            && Field(v, "hosted_invoice_url") == Some(Field(row, "hosted_invoice_url").GetOr(Null))
  {
    FactField(row, 10);
  }

  lemma FactsDelivery(row: Json)
    ensures var v := LetterFacts(row);
            && Field(v, "deliverable") == Some(Field(row, "deliverable").GetOr(Bool(false)))
            && Field(v, "not_deliverable_reason") == Some(Field(row, "not_deliverable_reason").GetOr(Null))
  {
    FactField(row, 11);
    FactField(row, 12);
  }

  /** The fact set of a row, name by name; what the row does not have is null, but for
      `deliverable`, which is then false. There is no other name in it. */
  lemma FactsSpelledOut(row: Json)
    ensures var f := LetterFacts(row);
            && f.Obj? && |f.members| == 13 && DistinctKeys(f.members)
            && Field(f, "invoice_id") == Some(Field(row, "id").GetOr(Null))
            && Field(f, "invoice_number") == Some(Field(row, "number").GetOr(Null))
            && Field(f, "customer_id") == Some(Field(row, "customer_id").GetOr(Null))
            && Field(f, "customer_name") == Some(Field(row, "customer_name").GetOr(Null))
            && Field(f, "customer_email") == Some(Field(row, "customer_email").GetOr(Null))
            && Field(f, "amount_due") == Some(Field(row, "amount_due").GetOr(Null))
            && Field(f, "amount_display") == Some(Field(row, "amount_due_display").GetOr(Null))
            && Field(f, "currency") == Some(Field(row, "currency").GetOr(Null))
            && Field(f, "due_date") == Some(Field(row, "due_date").GetOr(Null))
            && Field(f, "days_overdue") == Some(Field(row, "days_overdue").GetOr(Null))
            && Field(f, "hosted_invoice_url") == Some(Field(row, "hosted_invoice_url").GetOr(Null))
            && Field(f, "deliverable") == Some(Field(row, "deliverable").GetOr(Bool(false)))
            && Field(f, "not_deliverable_reason") == Some(Field(row, "not_deliverable_reason").GetOr(Null))
  {
    FactsKeys(row);
    FactsInvoice(row);
    FactsCustomer(row);
    FactsAmount(row);
    FactsCurrency(row);
    FactsDates(row);
    FactsLink(row);
    FactsDelivery(row);
  }

  lemma LetterInvoice(a: DraftArgs, f: Json)
    ensures var v := Payload(a, f);
            && Field(v, "action_type") == Some(Str("send_collection_letter"))
            && Field(v, "invoice_id") == Some(Str(a.invoiceId))
            && Field(v, "invoice_number") == Some(OrNull(Field(f, "invoice_number").GetOr(Null)))
  {
    PayloadField(a, f, 0);
    PayloadField(a, f, 1);
    PayloadField(a, f, 2);
  }

  lemma LetterCustomer(a: DraftArgs, f: Json)
    ensures var v := Payload(a, f);
            && Field(v, "customer_id") == Some(Field(f, "customer_id").GetOr(Null))
            && Field(v, "customer_name") == Some(Field(f, "customer_name").GetOr(Null))
            && Field(v, "customer_email") == Some(Field(f, "customer_email").GetOr(Null))
  {
    PayloadField(a, f, 3);
    PayloadField(a, f, 4);
    PayloadField(a, f, 5);
  }

  lemma LetterAmount(a: DraftArgs, f: Json)
    ensures var v := Payload(a, f);
            && Field(v, "amount_due") == Some(Field(f, "amount_due").GetOr(Null))
            && Field(v, "amount_display") == Some(Field(f, "amount_display").GetOr(Null))
            && Field(v, "currency") == Some(Field(f, "currency").GetOr(Null))
  {
    PayloadField(a, f, 6);
    PayloadField(a, f, 7);
    PayloadField(a, f, 8);
  }

  lemma LetterDates(a: DraftArgs, f: Json)
    ensures var v := Payload(a, f);
            && Field(v, "due_date") == Some(Field(f, "due_date").GetOr(Null))
            && Field(v, "days_overdue") == Some(Field(f, "days_overdue").GetOr(Null))
            && Field(v, "hosted_invoice_url") == Some(Field(f, "hosted_invoice_url").GetOr(Null))
  {
    PayloadField(a, f, 9);
    PayloadField(a, f, 10);
    PayloadField(a, f, 11);
  }

  lemma LetterTexts(a: DraftArgs, f: Json)
    ensures var v := Payload(a, f);
            && Field(v, "subject") == Some(Str(a.subject))
            && Field(v, "body") == Some(Str(a.body))
            && Field(v, "tone") == Some(Str(a.tone))
  {
    PayloadField(a, f, 12);
    PayloadField(a, f, 13);
    PayloadField(a, f, 14);
  }

  /** The stored letter, name by name, and no other name. */
  lemma LetterSpelledOut(a: DraftArgs, f: Json)
    ensures var p := Payload(a, f);
            && p.Obj? && |p.members| == 15 && DistinctKeys(p.members)
            && Field(p, "action_type") == Some(Str("send_collection_letter"))
            && Field(p, "invoice_id") == Some(Str(a.invoiceId))
            && Field(p, "invoice_number")
               == Some(var n := Field(f, "invoice_number").GetOr(Null); if Truthy(n) then n else Null)
            && Field(p, "customer_id") == Some(Field(f, "customer_id").GetOr(Null))
            && Field(p, "customer_name") == Some(Field(f, "customer_name").GetOr(Null))
            && Field(p, "customer_email") == Some(Field(f, "customer_email").GetOr(Null))
            && Field(p, "amount_due") == Some(Field(f, "amount_due").GetOr(Null))
            && Field(p, "amount_display") == Some(Field(f, "amount_display").GetOr(Null))
            && Field(p, "currency") == Some(Field(f, "currency").GetOr(Null))
            && Field(p, "due_date") == Some(Field(f, "due_date").GetOr(Null))
            && Field(p, "days_overdue") == Some(Field(f, "days_overdue").GetOr(Null))
            && Field(p, "hosted_invoice_url") == Some(Field(f, "hosted_invoice_url").GetOr(Null))
            && Field(p, "subject") == Some(Str(a.subject))
            && Field(p, "body") == Some(Str(a.body))
            && Field(p, "tone") == Some(Str(a.tone))
  {
    PayloadKeys(a, f);
    LetterInvoice(a, f);
    LetterCustomer(a, f);
    LetterAmount(a, f);
    LetterDates(a, f);
    LetterTexts(a, f);
  }

  /** The arguments the schema admits: five texts under five names, and nothing else. */
  lemma ArgumentsSpelledOut(arguments: Json, a: DraftArgs)
    ensures ArgsOf(arguments) == Some(a)
            <==> && arguments.Obj? && |arguments.members| == 5
                 && Field(arguments, "invoice_id") == Some(Str(a.invoiceId))
                 && Field(arguments, "subject") == Some(Str(a.subject))
                 && Field(arguments, "body") == Some(Str(a.body))
                 && Field(arguments, "tone") == Some(Str(a.tone))
                 && Field(arguments, "rationale") == Some(Str(a.rationale))
  {
  }

  // ---- the integer columns -----------------------------------------------------------------------

  predicate AreFigures(s: string) {
    s != "" && forall i | 0 <= i < |s| :: '0' <= s[i] <= '9'
  }

  /** Runs of digits with single underscores between them. */
  ghost predicate Underscored(s: string) {
    exists runs: seq<string> :: IsRuns(runs, s)
  }

  predicate IsRuns(runs: seq<string>, s: string) {
    runs != [] && (forall r | r in runs :: AreFigures(r)) && s == Joined("_", runs)
  }

  lemma {:induction false} RunsAreFigures(runs: seq<string>, s: string)
    requires IsRuns(runs, s)
    ensures IsFigures(s)
    decreases |runs|
  {
    assert runs[0] in runs;
    if |runs| > 1 {
      var rest := Joined("_", runs[1..]);
      RunsAreFigures(runs[1..], rest);
      var n := |runs[0]|;
      assert s == runs[0] + "_" + rest;
      forall i | 0 <= i < |s|
        ensures IsDigit(s[i]) || (s[i] == '_' && 0 < i < |s| - 1 && IsDigit(s[i - 1]) && IsDigit(s[i + 1]))
      {
        if i > n { assert s[i] == rest[i - n - 1]; }
      }
    }
  }

  function FirstRun(s: string): (n: nat)
    ensures n <= |s| && (forall i | 0 <= i < n :: IsDigit(s[i])) && (n < |s| ==> !IsDigit(s[n]))
  {
    if s != "" && IsDigit(s[0]) then 1 + FirstRun(s[1..]) else 0
  }

  lemma AfterUnderscore(s: string, n: nat)
    requires IsFigures(s) && n < |s| && (forall i | 0 <= i < n :: IsDigit(s[i])) && !IsDigit(s[n])
    ensures n > 0 && n + 1 < |s| && s == s[..n] + "_" + s[n + 1..] && AreFigures(s[..n]) && IsFigures(s[n + 1..])
  {
    assert s[n] == '_' && IsDigit(s[n + 1]);
    var rest := s[n + 1..];
    assert forall i | 0 <= i < |rest| :: rest[i] == s[n + 1 + i];
  }

  lemma OneMoreRun(run: string, runs: seq<string>, s: string, rest: string)
    requires AreFigures(run) && IsRuns(runs, rest) && s == run + "_" + rest
    ensures IsRuns([run] + runs, s)
  {
    assert ([run] + runs)[1..] == runs;
  }

  lemma {:induction false} FiguresHaveRuns(s: string) returns (runs: seq<string>)
    requires IsFigures(s)
    ensures IsRuns(runs, s)
    decreases |s|
  {
    var n := FirstRun(s);
    if n == |s| {
      runs := [s];
    } else {
      AfterUnderscore(s, n);
      var more := FiguresHaveRuns(s[n + 1..]);
      runs := [s[..n]] + more;
      OneMoreRun(s[..n], more, s, s[n + 1..]);
    }
  }

  /** `int(s)` reads a text exactly when, around it white space and perhaps before it one sign, it is
      runs of digits joined by underscores. */
  lemma IntTexts(s: string)
    ensures IsIntText(s)
            <==> var t := Strip(s);
                 Underscored(if t != "" && (t[0] == '+' || t[0] == '-') then t[1..] else t)
  {
    var t := Strip(s);
    var u := if t != "" && (t[0] == '+' || t[0] == '-') then t[1..] else t;
    if IsFigures(u) { var runs := FiguresHaveRuns(u); }
    if Underscored(u) {
      var runs :| IsRuns(runs, u);
      RunsAreFigures(runs, u);
    }
  }

  /** What becomes of `int(x or 0)`. */
  predicate Converts(v: Option<Json>, fault: Option<ColumnError>) {
    match v
    case Some(Str(s)) => fault == if s == "" || IsIntText(s) then None else Some(ValueError)
    case Some(Arr(items)) => fault == if items == [] then None else Some(TypeError)
    case Some(Obj(ms)) => fault == if ms == [] then None else Some(TypeError)
    case _ => fault == None
  }

  // ---- the rules, in order ---------------------------------------------------------------------------

  /** What is stored in the address column: `str()` of the address on record. */
  predicate IsColumnText(v: Option<Json>, t: string) {
    match v
    case Some(Str(s)) => t == s
    case None => t == "None"
    case Some(Null) => t == "None"
    case Some(Bool(b)) => t == if b then "True" else "False"
    case Some(Num(n)) => t == NumberText(n)
    case Some(_) => true
  }

  /** A draft call is answered by the first of these that applies, and stored when none does. */
  lemma JudgedAsSaid(facts: Facts, count: nat, maxProposals: int, review: Review, taken: bool, a: DraftArgs,
                     r: Result<Draft, DraftError>)
    requires Judged(facts, count, maxProposals, review, taken, a, r)
    ensures if a.invoiceId !in facts then r == Failure(InvoiceNotRead)
            else
              var f := facts[a.invoiceId];
              if !Truthy(Field(f, "deliverable").GetOr(Null)) then r == Failure(NotDeliverable)
              else if a.tone != "friendly" && a.tone != "firm" && a.tone != "final" then r == Failure(UnknownTone)
              else if Strip(a.rationale) == "" then r == Failure(RationaleRequired)
              else if count >= maxProposals then r == Failure(ProposalCapReached)
              else
                match review(a.subject, a.body, f)
                case Some(report) => r == Failure(LetterRejected(report))
                case None => ConvertedAsSaid(f, taken, a, r)
  {
    assert forall rule: nat :: Breaks(rule, facts, count, maxProposals, review, taken, a) ==> rule < 8;
    if r.Success? {
      RulesKept(facts, count, maxProposals, review, taken, a);
    } else {
      FirstBrokenOnly(facts, count, maxProposals, review, taken, a, RuleOf(r.error));
    }
  }

  /** The amount is converted before the days, and both before the row meets the index. */
  predicate ConvertedAsSaid(f: Json, taken: bool, a: DraftArgs, r: Result<Draft, DraftError>) {
    match r
    case Failure(ColumnRaises(e)) =>
      || Converts(Field(f, "amount_due"), Some(e))
      || (Converts(Field(f, "amount_due"), None) && Converts(Field(f, "days_overdue"), Some(e)))
    case Failure(DuplicatePendingProposal) =>
      taken && Converts(Field(f, "amount_due"), None) && Converts(Field(f, "days_overdue"), None)
    case Failure(_) => false
    case Success(d) =>
      && !taken && Converts(Field(f, "amount_due"), None) && Converts(Field(f, "days_overdue"), None)
      && d.payload == Payload(a, f) && d.rationale == a.rationale && d.invoiceId == a.invoiceId
      && IsColumnText(Field(f, "customer_email"), d.customerEmail)
  }

  lemma RulesKept(facts: Facts, count: nat, maxProposals: int, review: Review, taken: bool, a: DraftArgs)
    requires AllKept(facts, count, maxProposals, review, taken, a)
    ensures forall rule: nat | rule < 8 :: !Breaks(rule, facts, count, maxProposals, review, taken, a)
    ensures !Breaks(0, facts, count, maxProposals, review, taken, a) && !Breaks(1, facts, count, maxProposals, review, taken, a)
    ensures !Breaks(2, facts, count, maxProposals, review, taken, a) && !Breaks(3, facts, count, maxProposals, review, taken, a)
    ensures !Breaks(4, facts, count, maxProposals, review, taken, a) && !Breaks(5, facts, count, maxProposals, review, taken, a)
    ensures !Breaks(6, facts, count, maxProposals, review, taken, a) && !Breaks(7, facts, count, maxProposals, review, taken, a)
  {
  }

  lemma FirstBrokenOnly(facts: Facts, count: nat, maxProposals: int, review: Review, taken: bool, a: DraftArgs, rule: nat)
    requires FirstBroken(rule, facts, count, maxProposals, review, taken, a)
    ensures Breaks(rule, facts, count, maxProposals, review, taken, a)
    ensures rule > 0 ==> !Breaks(0, facts, count, maxProposals, review, taken, a)
    ensures rule > 1 ==> !Breaks(1, facts, count, maxProposals, review, taken, a)
    ensures rule > 2 ==> !Breaks(2, facts, count, maxProposals, review, taken, a)
    ensures rule > 3 ==> !Breaks(3, facts, count, maxProposals, review, taken, a)
    ensures rule > 4 ==> !Breaks(4, facts, count, maxProposals, review, taken, a)
    ensures rule > 5 ==> !Breaks(5, facts, count, maxProposals, review, taken, a)
    ensures rule > 6 ==> !Breaks(6, facts, count, maxProposals, review, taken, a)
  {
  }
}
