/**
 * The batch analysis page: the mock history of fifteen batches and the
 * selection of batches for training and for validation. A batch id is in at
 * most one of the two lists, and neither list holds an id twice.
 */
module BatchAnalysis {

  /** End-of-batch quality results; on the page they are random draws. */
  datatype Cqa = Cqa(ph: real, diameter: real, zeta: real)

  datatype HistoricalBatch = HistoricalBatch(
    id: string,
    startTime: string,
    duration: string,
    isGood: bool,
    cqaResults: Cqa)

  // ---------------------------------------------------------------------
  // Decimal text, as String(n) and padStart produce it

  function DigitChar(d: nat): char
    requires d < 10
  {
    (d + '0' as int) as char
  }

  function DigitValue(c: char): int
  {
    c as int - '0' as int
  }

  /** The decimal digits of `n`, without leading zeros. */
  function Decimal(n: nat): (s: string)
    ensures 1 <= |s|
    ensures n >= 10 ==> 2 <= |s|
    ensures n >= 100 ==> 3 <= |s|
  {
    if n < 10 then [DigitChar(n)] else Decimal(n / 10) + [DigitChar(n % 10)]
  }

  /** The number a string of decimal digits stands for. */
  function ParseDecimal(s: string): int
  {
    if s == [] then 0 else ParseDecimal(s[..|s| - 1]) * 10 + DigitValue(s[|s| - 1])
  }

  lemma {:induction false} ParseDecimalRoundTrip(n: nat)
    ensures ParseDecimal(Decimal(n)) == n
  {
    if n >= 10 {
      ParseDecimalRoundTrip(n / 10);
      var s := Decimal(n);
      assert s[..|s| - 1] == Decimal(n / 10);
    }
  }

  /** `s` widened to `width` characters by filling on the left. */
  function PadStart(s: string, width: nat, fill: char): (r: string)
    ensures |r| == if |s| >= width then |s| else width
    ensures r[|r| - |s|..] == s
    ensures forall k :: 0 <= k < |r| - |s| ==> r[k] == fill
  {
    if |s| >= width then s else seq(width - |s|, _ => fill) + s
  }

  // ---------------------------------------------------------------------
  // Mock history

  const HistorySize: nat := 15
  const IdPrefix: string := "BATCH-2024-05-"

  /** The id of history row `i`: the prefix and at least three digits. */
  function BatchId(i: nat): (id: string)
    ensures |id| >= |IdPrefix| + 3 && id[..|IdPrefix|] == IdPrefix
  {
    IdPrefix + PadStart(Decimal(300 + i), 3, '0')
  }

  function StartTime(i: nat): string
  {
    "2024-05-" + PadStart(Decimal(10 + i / 2), 2, '0') + " " + Decimal(10 + i % 5) + ":00"
  }

  /** The history table; `cqa(i)` stands for the random quality results of batch `i`. */
  function MockHistory(cqa: nat -> Cqa): (h: seq<HistoricalBatch>)
    ensures |h| == HistorySize
    ensures forall i :: 0 <= i < |h| ==> (h[i].isGood <==> i % 4 != 0)
    ensures forall i :: 0 <= i < |h| ==> h[i].cqaResults == cqa(i) && h[i].duration == "118 min"
  {
    seq(HistorySize, i requires 0 <= i < HistorySize =>
      HistoricalBatch(BatchId(i), StartTime(i), "118 min", i % 4 != 0, cqa(i)))
  }

  /** The number behind a batch id is 300 plus its row. */
  lemma BatchIdNumber(i: nat)
    ensures |BatchId(i)| >= |IdPrefix|
    ensures ParseDecimal(BatchId(i)[|IdPrefix|..]) == 300 + i
  {
    var digits := Decimal(300 + i);
    assert PadStart(digits, 3, '0') == digits;
    assert BatchId(i)[|IdPrefix|..] == digits;
    ParseDecimalRoundTrip(300 + i);
  }

  /** No two batches of the history share an id. */
  lemma MockHistoryIdsDistinct(cqa: nat -> Cqa)
    ensures forall i, j :: 0 <= i < j < |MockHistory(cqa)| ==> MockHistory(cqa)[i].id != MockHistory(cqa)[j].id
  {
    var h := MockHistory(cqa);
    forall i, j | 0 <= i < j < |h| ensures h[i].id != h[j].id {
      BatchIdNumber(i);
      BatchIdNumber(j);
    }
  }

  // ---------------------------------------------------------------------
  // Selection lists

  /** The two checkbox columns of the table. */
  datatype ListKind = Training | Validation

  /** The list with every occurrence of `x` filtered out, in order. */
  function Without(s: seq<string>, x: string): (r: seq<string>)
    ensures x !in r
    ensures forall y :: y != x ==> (y in r <==> y in s)
    ensures |r| <= |s|
  {
    if s == [] then []
    else if s[0] == x then Without(s[1..], x)
    else [s[0]] + Without(s[1..], x)
  }

  /** Filtering out an absent id changes nothing. */
  lemma {:induction false} WithoutAbsent(s: seq<string>, x: string)
    requires x !in s
    ensures Without(s, x) == s
  {
    if s != [] {
      WithoutAbsent(s[1..], x);
    }
  }

  /** Filtering out the id just appended gives back the list it was appended to. */
  lemma {:induction false} WithoutAppended(s: seq<string>, x: string)
    requires x !in s
    ensures Without(s + [x], x) == s
  {
    if s == [] {
      assert [x][1..] == [];
    } else {
      assert (s + [x])[1..] == s[1..] + [x];
      WithoutAppended(s[1..], x);
    }
  }

  ghost predicate NoDuplicates(s: seq<string>)
  {
    forall i, j :: 0 <= i < j < |s| ==> s[i] != s[j]
  }

  lemma {:induction false} WithoutKeepsNoDuplicates(s: seq<string>, x: string)
    requires NoDuplicates(s)
    ensures NoDuplicates(Without(s, x))
  {
    if s != [] {
      WithoutKeepsNoDuplicates(s[1..], x);
      if s[0] != x {
        assert s[0] !in s[1..];
        assert s[0] !in Without(s[1..], x);
      }
    }
  }

  /** A checkbox click on one list: remove the id if it is there, append it otherwise. */
  function Toggled(s: seq<string>, x: string): (r: seq<string>)
    ensures x in r <==> x !in s
    ensures forall y :: y != x ==> (y in r <==> y in s)
  {
    if x in s then Without(s, x) else s + [x]
  }

  /** Both selection lists as one value. */
  datatype Selections = Selections(train: seq<string>, valid: seq<string>)

  /** Neither list repeats an id and no id is in both. */
  ghost predicate WellFormed(sel: Selections)
  {
    && NoDuplicates(sel.train)
    && NoDuplicates(sel.valid)
    && forall y :: y in sel.train ==> y !in sel.valid
  }

  /** One click on the checkbox of `id` in the column `kind`. */
  function ToggleSelection(sel: Selections, id: string, kind: ListKind): (r: Selections)
    ensures kind == Training ==> id !in r.valid && (id in r.train <==> id !in sel.train)
    ensures kind == Validation ==> id !in r.train && (id in r.valid <==> id !in sel.valid)
    ensures kind == Training ==> id !in sel.train ==> r.train == sel.train + [id]
    ensures kind == Validation ==> id !in sel.valid ==> r.valid == sel.valid + [id]
    ensures forall y :: y != id ==> (y in r.train <==> y in sel.train) && (y in r.valid <==> y in sel.valid)
  {
    match kind
    case Training =>
      Selections(Toggled(sel.train, id), if id in sel.valid then Without(sel.valid, id) else sel.valid)
    case Validation =>
      Selections(if id in sel.train then Without(sel.train, id) else sel.train, Toggled(sel.valid, id))
  }

  lemma ToggledKeepsNoDuplicates(s: seq<string>, x: string)
    requires NoDuplicates(s)
    ensures NoDuplicates(Toggled(s, x))
  {
    if x in s {
      WithoutKeepsNoDuplicates(s, x);
    }
  }

  /** A click keeps the lists free of duplicates and disjoint. */
  lemma ToggleSelectionKeepsWellFormed(sel: Selections, id: string, kind: ListKind)
    requires WellFormed(sel)
    ensures WellFormed(ToggleSelection(sel, id, kind))
  {
    ToggledKeepsNoDuplicates(sel.train, id);
    ToggledKeepsNoDuplicates(sel.valid, id);
    WithoutKeepsNoDuplicates(sel.train, id);
    WithoutKeepsNoDuplicates(sel.valid, id);
  }

  /** Two clicks on the same checkbox of an unselected id leave both lists as they were. */
  lemma ToggleSelectionTwice(sel: Selections, id: string, kind: ListKind)
    requires id !in sel.train && id !in sel.valid
    ensures ToggleSelection(ToggleSelection(sel, id, kind), id, kind) == sel
  {
    WithoutAppended(sel.train, id);
    WithoutAppended(sel.valid, id);
  }

  class SelectionState {
    var selectedForTrain: seq<string>
    var selectedForValid: seq<string>

    ghost predicate Valid()
      reads this
    {
      WellFormed(Selections(selectedForTrain, selectedForValid))
    }

    /** Nothing is selected when the page opens. */
    constructor ()
      ensures Valid()
      ensures selectedForTrain == [] && selectedForValid == []
    {
      selectedForTrain := [];
      selectedForValid := [];
    }

    /** The checkbox handler of both columns. */
    method Toggle(id: string, kind: ListKind)
      requires Valid()
      modifies this
      ensures Valid()
      ensures Selections(selectedForTrain, selectedForValid)
           == ToggleSelection(old(Selections(selectedForTrain, selectedForValid)), id, kind)
    {
      ToggleSelectionKeepsWellFormed(Selections(selectedForTrain, selectedForValid), id, kind);
      if kind == Training {
        if id in selectedForValid {
          selectedForValid := Without(selectedForValid, id);
        }
        selectedForTrain := if id in selectedForTrain then Without(selectedForTrain, id) else selectedForTrain + [id];
      } else {
        if id in selectedForTrain {
          selectedForTrain := Without(selectedForTrain, id);
        }
        selectedForValid := if id in selectedForValid then Without(selectedForValid, id) else selectedForValid + [id];
      }
    }

    /** The train button is enabled exactly when some batch is selected for training. */
    function TrainEnabled(): (enabled: bool)
      reads this
      ensures enabled <==> exists y :: y in selectedForTrain
    {
      assert selectedForTrain != [] ==> selectedForTrain[0] in selectedForTrain;
      |selectedForTrain| != 0
    }
  }
}
