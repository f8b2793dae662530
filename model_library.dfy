/**
 * The model library page: model pairs move through the lifecycle
 * Pending -> Validated -> Active, activating one demotes every other active
 * model to Validated, and the page shows one column per status.
 */
module ModelLibrary {

  datatype ModelStatus = Pending | Validated | Active

  datatype ModelPair = ModelPair(
    id: string,
    name: string,
    trainedDate: string,
    accuracy: real,
    status: ModelStatus,
    description: string)

  datatype Option<T> = None | Some(value: T)

  /** The library as the page first shows it. */
  const InitialModels: seq<ModelPair> := [
    ModelPair("MOD-001", "Polishing-V1.0", "2024-04-15", 88.5, Active,
              "Baseline model for standard slurry."),
    ModelPair("MOD-002", "Polishing-V1.2-Exp", "2024-05-10", 92.1, Validated,
              "Improved temp bounds based on April data."),
    ModelPair("MOD-003", "New-Formula-Beta", "2024-05-20", 76.4, Pending,
              "Initial training for new customer formula.")
  ]

  ghost predicate UniqueIds(models: seq<ModelPair>)
  {
    forall i, j :: 0 <= i < j < |models| ==> models[i].id != models[j].id
  }

  ghost predicate AtMostOneActive(models: seq<ModelPair>)
  {
    forall i, j :: 0 <= i < |models| && 0 <= j < |models| && models[i].status == Active && models[j].status == Active ==> i == j
  }

  ghost predicate ExactlyOneActive(models: seq<ModelPair>)
  {
    exists k :: 0 <= k < |models| && models[k].status == Active && AtMostOneActive(models)
  }

  // ---------------------------------------------------------------------
  // Status moves

  /** What one model becomes when `id` is moved to `newStatus`. */
  function Moved(m: ModelPair, id: string, newStatus: ModelStatus): (r: ModelPair)
    ensures r.(status := m.status) == m
    ensures m.id == id ==> r.status == newStatus
    ensures m.id != id && newStatus == Active ==> r.status != Active
    ensures m.id != id && (newStatus != Active || m.status != Active) ==> r == m
    ensures m.id != id && newStatus == Active && m.status == Active ==> r == m.(status := Validated)
  {
    if m.id == id then m.(status := newStatus)
    else if newStatus == Active && m.status == Active then m.(status := Validated)
    else m
  }

  /** The whole list after `id` is moved to `newStatus`. */
  function MoveAll(models: seq<ModelPair>, id: string, newStatus: ModelStatus): (r: seq<ModelPair>)
    ensures |r| == |models|
    ensures forall k :: 0 <= k < |r| ==> r[k].(status := models[k].status) == models[k]
    ensures forall k :: 0 <= k < |r| && models[k].id == id ==> r[k].status == newStatus
    ensures forall k :: 0 <= k < |r| ==>
      (r[k].status == Active <==>
         if models[k].id == id then newStatus == Active
         else newStatus != Active && models[k].status == Active)
    ensures forall k :: 0 <= k < |r| && models[k].id != id ==>
      r[k] == if newStatus == Active && models[k].status == Active
              then models[k].(status := Validated) else models[k]
  {
    seq(|models|, k requires 0 <= k < |models| => Moved(models[k], id, newStatus))
  }

  /** Activating an existing model of a library with unique ids leaves exactly that model active. */
  lemma ActivationLeavesExactlyOneActive(models: seq<ModelPair>, k: nat)
    requires UniqueIds(models)
    requires k < |models|
    ensures var r := MoveAll(models, models[k].id, Active);
      r[k].status == Active && ExactlyOneActive(r)
  {
    var r := MoveAll(models, models[k].id, Active);
    forall i, j | 0 <= i < |r| && 0 <= j < |r| && r[i].status == Active && r[j].status == Active
      ensures i == j
    {
      assert models[i].id == models[k].id && models[j].id == models[k].id;
    }
  }

  /** Activating an id that no model has leaves no model active. */
  lemma ActivatingUnknownIdLeavesNoneActive(models: seq<ModelPair>, id: string)
    requires forall k :: 0 <= k < |models| ==> models[k].id != id
    ensures forall k :: 0 <= k < |models| ==> MoveAll(models, id, Active)[k].status != Active
  {
  }

  /** Any move keeps the ids unique and at most one model active. */
  lemma MoveKeepsAtMostOneActive(models: seq<ModelPair>, id: string, newStatus: ModelStatus)
    requires UniqueIds(models) && AtMostOneActive(models)
    ensures UniqueIds(MoveAll(models, id, newStatus))
    ensures AtMostOneActive(MoveAll(models, id, newStatus))
  {
    var r := MoveAll(models, id, newStatus);
    forall i, j | 0 <= i < j < |r| ensures r[i].id != r[j].id {
      assert r[i].id == models[i].id && r[j].id == models[j].id;
    }
    forall i, j | 0 <= i < |r| && 0 <= j < |r| && r[i].status == Active && r[j].status == Active
      ensures i == j
    {
      if newStatus == Active {
        assert models[i].id == id && models[j].id == id;
      } else {
        assert models[i].status == Active && models[j].status == Active;
      }
    }
  }

  // ---------------------------------------------------------------------
  // The transition buttons

  /** The move a model's card offers: Validate on a pending card, Activate on a validated one, none on the active one. */
  function OfferedMove(status: ModelStatus): (next: Option<ModelStatus>)
    ensures next == None <==> status == Active
    ensures next != None ==> Rank(next.value) == Rank(status) + 1
  {
    match status
    case Pending => Some(Validated)
    case Validated => Some(Active)
    case Active => None
  }

  /** Position of a status in the lifecycle. */
  function Rank(status: ModelStatus): nat
  {
    match status
    case Pending => 0
    case Validated => 1
    case Active => 2
  }

  /** Pressing the button of card `k` moves that card one column to the right and keeps the library consistent. */
  lemma OfferedMoveKeepsInvariant(models: seq<ModelPair>, k: nat)
    requires UniqueIds(models) && AtMostOneActive(models)
    requires k < |models| && OfferedMove(models[k].status) != None
    ensures var r := MoveAll(models, models[k].id, OfferedMove(models[k].status).value);
      && UniqueIds(r) && AtMostOneActive(r)
      && Rank(r[k].status) == Rank(models[k].status) + 1
  {
    MoveKeepsAtMostOneActive(models, models[k].id, OfferedMove(models[k].status).value);
  }

  // ---------------------------------------------------------------------
  // Status columns

  /** The cards of one column, in library order. */
  function Column(models: seq<ModelPair>, status: ModelStatus): (col: seq<ModelPair>)
    ensures forall m :: m in col <==> m in models && m.status == status
    ensures |col| <= |models|
  {
    if models == [] then []
    else (if models[0].status == status then [models[0]] else []) + Column(models[1..], status)
  }

  /** Every model is in exactly one column: the three column counts add up to the library size. */
  lemma {:induction false} ColumnsPartition(models: seq<ModelPair>)
    ensures |Column(models, Pending)| + |Column(models, Validated)| + |Column(models, Active)| == |models|
  {
    if models != [] {
      ColumnsPartition(models[1..]);
    }
  }

  /** No model is active exactly when the Active column is empty. */
  lemma {:induction false} NoActiveColumnEmpty(models: seq<ModelPair>)
    ensures |Column(models, Active)| == 0 <==> forall k :: 0 <= k < |models| ==> models[k].status != Active
  {
    if models != [] {
      NoActiveColumnEmpty(models[1..]);
      assert forall k :: 1 <= k < |models| ==> models[k] == models[1..][k - 1];
    }
  }

  /** The Active column holds at most one card exactly when at most one model is active. */
  lemma {:induction false} ActiveColumnAtMostOne(models: seq<ModelPair>)
    ensures AtMostOneActive(models) <==> |Column(models, Active)| <= 1
  {
    if models != [] {
      var rest := models[1..];
      ActiveColumnAtMostOne(rest);
      NoActiveColumnEmpty(rest);
      assert forall k :: 1 <= k < |models| ==> models[k] == rest[k - 1];
      if models[0].status == Active {
        if AtMostOneActive(models) {
          forall k | 0 <= k < |rest| ensures rest[k].status != Active {
            assert models[k + 1] == rest[k];
          }
        }
        if |Column(models, Active)| <= 1 {
          assert forall k :: 1 <= k < |models| ==> models[k].status != Active;
        }
      } else {
        if AtMostOneActive(models) {
          forall i, j | 0 <= i < |rest| && 0 <= j < |rest| && rest[i].status == Active && rest[j].status == Active
            ensures i == j
          {
            assert models[i + 1] == rest[i] && models[j + 1] == rest[j];
          }
        }
        if AtMostOneActive(rest) {
          forall i, j | 0 <= i < |models| && 0 <= j < |models| && models[i].status == Active && models[j].status == Active
            ensures i == j
          {
            assert rest[i - 1].status == Active && rest[j - 1].status == Active;
          }
        }
      }
    }
  }

  /** The initial library has unique ids, exactly one active model, and one card per column. */
  lemma InitialModelsWellFormed()
    ensures UniqueIds(InitialModels)
    ensures ExactlyOneActive(InitialModels) && InitialModels[0].status == Active
    ensures |Column(InitialModels, Pending)| == 1 && |Column(InitialModels, Validated)| == 1
    ensures |Column(InitialModels, Active)| == 1
  {
    assert InitialModels[0].id[6] == '1' && InitialModels[1].id[6] == '2' && InitialModels[2].id[6] == '3';
    assert InitialModels[1..][1..][1..] == [];
  }

  // ---------------------------------------------------------------------
  // Page state

  class Library {
    var models: seq<ModelPair>

    ghost predicate Valid()
      reads this
    {
      UniqueIds(models) && AtMostOneActive(models)
    }

    constructor ()
      ensures Valid()
      ensures models == InitialModels
    {
      models := InitialModels;
      InitialModelsWellFormed();
    }

    /** Replaces the list by its image under the status move. */
    method MoveStatus(id: string, newStatus: ModelStatus)
      requires Valid()
      modifies this
      ensures Valid()
      ensures models == MoveAll(old(models), id, newStatus)
    {
      MoveKeepsAtMostOneActive(models, id, newStatus);
      models := MoveAll(models, id, newStatus);
    }

    /** The number shown in the header of a status column. */
    function ColumnCount(status: ModelStatus): (n: nat)
      reads this
      ensures n <= |models|
    {
      |Column(models, status)|
    }
  }
}
