/** The cap the operator chose for a run, and the cap the draft tool enforces. */
module OperatorCap {
  import opened Prelude
  import opened CanonicalJson
  import opened JsonRoundTrip
  import opened Registry
  import opened DraftTool

  /** `max_proposals or settings.max_proposals_per_run`: what is stored with the run. */
  function ChosenCap(asked: Option<int>, configured: int): int {
    match asked
    case Some(cap) => if cap == 0 then configured else cap
    case None => configured
  }

  /** A draft call that stored its letter, with what the tool and the database knew at that moment. */
  datatype Stored = Stored(facts: Facts, review: Review, others: set<string>, decided: set<nat>, args: DraftArgs, row: Draft)

  function Rows(calls: seq<Stored>): seq<Draft> {
    seq(|calls|, i requires 0 <= i < |calls| => calls[i].row)
  }

  /** The letters of one run, stored one after the other under the configured cap. */
  predicate StoredInTurn(configured: int, calls: seq<Stored>) {
    forall i | 0 <= i < |calls| :: StoredAt(configured, calls, i)
  }

  predicate StoredAt(configured: int, calls: seq<Stored>, i: nat)
    requires i < |calls|
  {
    var c := calls[i];
    Judged(c.facts, i, configured, c.review, Taken(Rows(calls)[..i], c.others, c.decided, c.args.invoiceId), c.args, Success(c.row))
  }

  /** No run stores more letters than the operator chose. */
  ghost predicate CapKept(chosen: nat, configured: int) {
    forall calls: seq<Stored> :: StoredInTurn(configured, calls) ==> |calls| <= chosen
  }

  // ---- one letter more than the operator chose ---------------------------------------------------

  const DELIVERABLE := Obj([Member("deliverable", Bool(true))])

  function Invoices(n: nat): (facts: Facts)
    ensures forall i | 0 <= i < n :: Digits(i) in facts && facts[Digits(i)] == DELIVERABLE
  {
    if n == 0 then map[] else Invoices(n - 1)[Digits(n - 1) := DELIVERABLE]
  }

  function ArgsFor(i: nat): DraftArgs {
    DraftArgs(Digits(i), "Reminder", "Please pay.", "firm", "It is overdue.")
  }

  /** `n` invoices, a letter for each, no rule broken but perhaps the operator's. */
  function LetterEach(n: nat): seq<Stored> {
    seq(n, i requires 0 <= i < n => Stored(Invoices(n), (_, _, _) => None, {}, {}, ArgsFor(i), DraftOf(ArgsFor(i), DELIVERABLE)))
  }

  lemma NoneTaken(n: nat, i: nat)
    requires i < n
    ensures !Taken(Rows(LetterEach(n))[..i], {}, {}, Digits(i))
  {
    forall k | 0 <= k < i ensures Rows(LetterEach(n))[..i][k].invoiceId != Digits(i) {
      DigitsRoundTrip(k);
      DigitsRoundTrip(i);
    }
  }

  lemma AllRulesKept(facts: Facts, i: nat, configured: int, review: Review)
    requires Digits(i) in facts && facts[Digits(i)] == DELIVERABLE && i < configured
    requires review("Reminder", "Please pay.", DELIVERABLE) == None
    ensures AllKept(facts, i, configured, review, false, ArgsFor(i))
  {
    assert GetOrNull(DELIVERABLE, "deliverable") == Bool(true);
    assert ColumnFault(DELIVERABLE) == None;
    assert Strip("It is overdue.") != "" by { Trimmed(); }
  }

  lemma Trimmed()
    ensures Strip("It is overdue.") == "It is overdue."
  {
  }

  lemma LetterEachStored(n: nat, configured: int)
    requires n <= configured
    ensures StoredInTurn(configured, LetterEach(n)) && |LetterEach(n)| == n
  {
    var calls := LetterEach(n);
    forall i: nat | i < n ensures StoredAt(configured, calls, i) {
      NoneTaken(n, i);
      AllRulesKept(calls[i].facts, i, configured, calls[i].review);
    }
  }

  /** The input: a configured cap above the chosen one, and one deliverable invoice more than chosen. */
  lemma OneLetterTooMany(chosen: nat, configured: int)
    requires chosen < configured
    ensures StoredInTurn(configured, LetterEach(chosen + 1)) && |LetterEach(chosen + 1)| > chosen
  {
    LetterEachStored(chosen + 1, configured);
  }

  /** The operator's cap is kept exactly when the configured one is no larger: nothing reads the cap
      that is stored with the run. */
  lemma OperatorsCapKept(chosen: nat, configured: int)
    ensures CapKept(chosen, configured) <==> configured <= chosen
  {
    if chosen < configured {
      OneLetterTooMany(chosen, configured);
    } else {
      forall calls: seq<Stored> | StoredInTurn(configured, calls) ensures |calls| <= chosen {
        if calls != [] {
          var last := |calls| - 1;
          assert StoredAt(configured, calls, last);
          assert !Breaks(4, calls[last].facts, last, configured, calls[last].review,
                         Taken(Rows(calls)[..last], calls[last].others, calls[last].decided, calls[last].args.invoiceId),
                         calls[last].args);
        }
      }
    }
  }

  /** So a run for which the operator chose nothing keeps its cap, and one for which a cap was chosen
      keeps it exactly when that is at least the configured one. */
  lemma AskedCapKept(asked: Option<int>, configured: int)
    requires ChosenCap(asked, configured) >= 0
    ensures CapKept(ChosenCap(asked, configured), configured)
            <==> asked.None? || asked.value == 0 || configured <= asked.value
  {
    OperatorsCapKept(ChosenCap(asked, configured), configured);
  }
}
