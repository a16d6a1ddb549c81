/** The roulette's mutable state and its event handlers: the three selection
    sets, the candidate pool they determine, the extracted option maps, and the
    spin state machine whose timer callbacks draw from the pool. */
module Roulette {
  import opened Catalog
  import opened Extraction
  import opened Filter
  import opened Spin

  /** What one timer callback of a spin does: show a pick and schedule the
      next callback after `delay` ms, show the final pick and stop, or throw
      before showing anything. */
  datatype Step = Next(shown: Weapon, delay: int) | Stop(final: Weapon) | Crashed

  /** A filter action the user may take between two draws of a running spin. */
  datatype Edit = ToggleOne(c: Category, key: string) | ResetAll

  function ApplyEdit(sel: Selection, e: Edit): Selection
  {
    match e
    case ToggleOne(c, key) => sel.Toggle(c, key)
    case ResetAll => NoSelection
  }

  /** The selection after applying `es` in order. */
  function ApplyEdits(sel: Selection, es: seq<Edit>): Selection
  {
    if es == [] then sel else ApplyEdit(ApplyEdits(sel, es[..|es| - 1]), es[|es| - 1])
  }

  lemma ApplyEditsPrefix(sel: Selection, es: seq<Edit>, k: nat)
    requires k < |es|
    ensures ApplyEdits(sel, es[..k + 1]) == ApplyEdit(ApplyEdits(sel, es[..k]), es[k])
  {
    assert es[..k + 1][..k] == es[..k];
  }

  function Min(a: int, b: int): int
  {
    if a < b then a else b
  }

  class Roulette {
    /** The catalog, loaded before the roulette starts. */
    const weaponData: seq<Weapon>
    /** Key -> display name per category, filled once at start-up. */
    const uniqueTypes: map<string, string>
    const uniqueSubs: map<string, string>
    const uniqueSpecials: map<string, string>

    var selectedTypes: set<string>
    var selectedSubs: set<string>
    var selectedSpecials: set<string>
    var filteredWeapons: seq<Weapon>

    var isSpinning: bool
    /** Draws made so far in the current spin, and draws it will make. */
    var counter: int
    var totalSpins: int
    /** The pool the current spin draws from, taken when it starts. */
    var spinPool: seq<Weapon>
    /** A `spinStep` callback is scheduled. */
    var timerPending: bool
    /** The weapon the result card shows. */
    var displayed: Option<Weapon>

    function Selected(): Selection
      reads this
    {
      Selection(selectedTypes, selectedSubs, selectedSpecials)
    }

    ghost predicate Valid()
      reads this
    {
      FiltersValid() && SpinValid()
    }

    /** The option maps come from the catalog and the pool from the selection. */
    ghost predicate FiltersValid()
      reads this
    {
      && AllWellFormed(weaponData)
      && uniqueTypes == Names(weaponData, Type)
      && uniqueSubs == Names(weaponData, Sub)
      && uniqueSpecials == Names(weaponData, Special)
      && filteredWeapons == FilterPool(weaponData, Selected())
    }

    /** A running spin has a legal draw count, a non-empty pool, and a
        callback pending only while draws remain. */
    ghost predicate SpinValid()
      reads this
    {
      && (timerPending ==> isSpinning)
      && (isSpinning ==>
            && BaseSpins <= totalSpins < BaseSpins + SpinSpread
            && 0 <= counter <= totalSpins
            && (timerPending ==> counter < totalSpins)
            && spinPool != [])
    }

    twostate predicate FiltersUnchanged()
      reads this
    {
      && selectedTypes == old(selectedTypes)
      && selectedSubs == old(selectedSubs)
      && selectedSpecials == old(selectedSpecials)
      && filteredWeapons == old(filteredWeapons)
    }

    twostate predicate SpinUnchanged()
      reads this
    {
      && isSpinning == old(isSpinning)
      && counter == old(counter)
      && totalSpins == old(totalSpins)
      && spinPool == old(spinPool)
      && timerPending == old(timerPending)
      && displayed == old(displayed)
    }

    /** Start-up: extract the option maps; nothing is selected, so the pool is
        the whole catalog. */
    constructor (catalog: seq<Weapon>)
      requires AllWellFormed(catalog)
      ensures Valid()
      ensures weaponData == catalog
      ensures Selected() == NoSelection && filteredWeapons == catalog
      ensures uniqueTypes == Names(catalog, Type)
      ensures uniqueSubs == Names(catalog, Sub)
      ensures uniqueSpecials == Names(catalog, Special)
      ensures !isSpinning && !timerPending && displayed == None
    {
      weaponData := catalog;
      var types, subs, specials := ExtractFilterData(catalog);
      uniqueTypes, uniqueSubs, uniqueSpecials := types, subs, specials;
      selectedTypes, selectedSubs, selectedSpecials := {}, {}, {};
      filteredWeapons := catalog;
      isSpinning, counter, totalSpins, spinPool := false, 0, 0, [];
      timerPending, displayed := false, None;
      new;
      NoFilterKeepsAll(catalog);
    }

    /** Recomputes the pool from the selection; `canSpin` is whether the spin
        button is enabled afterwards. */
    method UpdateFilters() returns (canSpin: bool)
      requires AllWellFormed(weaponData)
      modifies this
      ensures filteredWeapons == FilterPool(weaponData, Selected())
      ensures canSpin == (filteredWeapons != [])
      ensures Selected() == old(Selected())
      ensures SpinUnchanged()
    {
      filteredWeapons := FilterPool(weaponData, Selected());
      canSpin := filteredWeapons != [];
    }

    /** A click on the option button for `key` of category `c`. */
    method ToggleSelection(c: Category, key: string) returns (canSpin: bool)
      requires Valid()
      modifies this
      ensures Valid()
      ensures Selected() == old(Selected()).Toggle(c, key)
      ensures canSpin == (filteredWeapons != [])
      ensures SpinUnchanged()
    {
      match c {
        case Type => selectedTypes := ToggleKey(selectedTypes, key);
        case Sub => selectedSubs := ToggleKey(selectedSubs, key);
        case Special => selectedSpecials := ToggleKey(selectedSpecials, key);
      }
      canSpin := UpdateFilters();
    }

    /** The reset button: all three sets are cleared and the pool is the
        whole catalog again. */
    method ResetFilters() returns (canSpin: bool)
      requires Valid()
      modifies this
      ensures Valid()
      ensures Selected() == NoSelection
      ensures filteredWeapons == weaponData
      ensures canSpin == (weaponData != [])
      ensures SpinUnchanged()
    {
      selectedTypes, selectedSubs, selectedSpecials := {}, {}, {};
      canSpin := UpdateFilters();
      NoFilterKeepsAll(weaponData);
    }

    /** `displayWeapon` followed by the rest of `spinStep` once `pick` is drawn:
        count the draw, then schedule the next callback or stop. */
    method TakeStep(pick: Weapon) returns (step: Step)
      requires Valid() && timerPending
      modifies this
      ensures Valid() && FiltersUnchanged()
      ensures spinPool == old(spinPool) && totalSpins == old(totalSpins)
      ensures counter == old(counter) + 1 && counter <= totalSpins
      ensures displayed == Some(pick)
      ensures counter < totalSpins ==> step == Next(pick, Delay(counter, totalSpins)) && isSpinning && timerPending
      ensures counter == totalSpins ==> step == Stop(pick) && !isSpinning && !timerPending
    {
      timerPending := false;
      displayed := Some(pick);
      counter := counter + 1;
      if counter < totalSpins {
        step := Next(pick, Delay(counter, totalSpins));
        timerPending := true;
      } else {
        step := Stop(pick);
        StopSpin(pick);
      }
    }

    /** The end of a spin: release the busy flag and show the final pick. */
    method StopSpin(finalWeapon: Weapon)
      requires Valid() && !timerPending
      modifies this
      ensures Valid() && FiltersUnchanged()
      ensures !isSpinning && !timerPending && displayed == Some(finalWeapon)
      ensures counter == old(counter) && totalSpins == old(totalSpins) && spinPool == old(spinPool)
    {
      isSpinning := false;
      displayed := Some(finalWeapon);
    }

    /** One timer callback, drawing index `pick` of the pool the spin
        started with. This is the corrected callback: the script's own
        callback reads the current pool (`SpinStepLive`), and the two agree
        whenever the filters have not changed since the spin started. */
    method SpinStep(pick: nat) returns (step: Step)
      requires Valid() && timerPending && pick < |spinPool|
      modifies this
      ensures Valid() && FiltersUnchanged()
      ensures spinPool == old(spinPool) && totalSpins == old(totalSpins)
      ensures counter == old(counter) + 1 && counter <= totalSpins
      ensures displayed == Some(spinPool[pick])
      ensures counter < totalSpins ==> step == Next(displayed.value, Delay(counter, totalSpins)) && isSpinning && timerPending
      ensures counter == totalSpins ==> step == Stop(displayed.value) && !isSpinning && !timerPending
    {
      step := TakeStep(spinPool[pick]);
    }

    /** One timer callback as the script has it: it indexes the CURRENT pool,
        so a filter change made during the spin takes effect, and an empty
        pool yields `undefined`, on which `displayWeapon` throws. `pick` is
        the index drawn for the current pool. */
    method SpinStepLive(pick: nat) returns (step: Step)
      requires Valid() && timerPending
      requires filteredWeapons != [] ==> pick < |filteredWeapons|
      modifies this
      ensures Valid() && FiltersUnchanged()
      ensures spinPool == old(spinPool) && totalSpins == old(totalSpins)
      ensures old(filteredWeapons) == [] ==>
        step == Crashed && isSpinning && !timerPending && counter == old(counter) && displayed == old(displayed)
      ensures old(filteredWeapons) != [] ==>
        && counter == old(counter) + 1 && counter <= totalSpins
        && displayed == Some(filteredWeapons[pick])
        && (counter < totalSpins ==> step == Next(displayed.value, Delay(counter, totalSpins)) && isSpinning && timerPending)
        && (counter == totalSpins ==> step == Stop(displayed.value) && !isSpinning && !timerPending)
    {
      if filteredWeapons == [] {
        timerPending := false;
        step := Crashed;
      } else {
        step := TakeStep(filteredWeapons[pick]);
      }
    }

    /** The spin button: refused while a spin runs or when the pool is empty;
        otherwise it fixes the number of draws from `rTotal`, takes the pool,
        and makes the first draw, index `pick`, at once. */
    method StartSpin(rTotal: real, pick: nat) returns (outcome: Option<Step>)
      requires Valid() && IsUnit(rTotal)
      requires filteredWeapons != [] ==> pick < |filteredWeapons|
      modifies this
      ensures Valid() && FiltersUnchanged()
      ensures outcome.None? <==> old(isSpinning) || old(filteredWeapons) == []
      ensures outcome.None? ==> SpinUnchanged()
      ensures outcome.Some? ==>
        && isSpinning && timerPending
        && totalSpins == TotalSpinsFrom(rTotal)
        && spinPool == old(filteredWeapons)
        && counter == 1
        && displayed == Some(spinPool[pick])
        && outcome.value == Next(displayed.value, Speed)
    {
      if isSpinning || filteredWeapons == [] {
        return None;
      }
      isSpinning := true;
      counter := 0;
      totalSpins := TotalSpinsFrom(rTotal);
      spinPool := filteredWeapons;
      timerPending := true;
      var step := SpinStep(pick);
      outcome := Some(step);
    }

    /** A filter action between two draws. */
    method Apply(e: Edit) returns (canSpin: bool)
      requires Valid()
      modifies this
      ensures Valid()
      ensures Selected() == ApplyEdit(old(Selected()), e)
      ensures canSpin == (filteredWeapons != [])
      ensures SpinUnchanged()
    {
      match e
      case ToggleOne(c, key) => canSpin := ToggleSelection(c, key);
      case ResetAll => canSpin := ResetFilters();
    }

    /** One gap of a running spin followed by the callback that ends it:
        the user's filter action, if any, then a draw from the spin's pool.
        A gap holds at most one filter action here. */
    method Tick(edit: Option<Edit>, pick: nat) returns (step: Step)
      requires Valid() && timerPending && pick < |spinPool|
      modifies this
      ensures Valid()
      ensures Selected() == if edit.Some? then ApplyEdit(old(Selected()), edit.value) else old(Selected())
      ensures spinPool == old(spinPool) && totalSpins == old(totalSpins)
      ensures counter == old(counter) + 1 && counter <= totalSpins
      ensures displayed == Some(spinPool[pick])
      ensures counter < totalSpins ==> step == Next(displayed.value, Delay(counter, totalSpins)) && isSpinning && timerPending
      ensures counter == totalSpins ==> step == Stop(displayed.value) && !isSpinning && !timerPending
    {
      if edit.Some? {
        var canSpin := Apply(edit.value);
      }
      step := SpinStep(pick);
    }

    /** The rest of a started spin: each scheduled callback in turn until the
        last draw, with the user's filter action `edits[k]` (if any) taken in
        the gap before the k-th of these draws, and `picks[k]` its index.
        Each gap holds at most one filter action; several clicks between two
        draws are not covered. */
    method FinishSpin(picks: seq<nat>, edits: seq<Edit>) returns (shown: seq<Weapon>, delays: seq<int>)
      requires Valid() && timerPending
      requires forall i :: 0 <= i < |picks| ==> picks[i] < |spinPool|
      requires |picks| >= totalSpins - counter
      modifies this
      ensures Valid() && !isSpinning && !timerPending
      ensures spinPool == old(spinPool) && totalSpins == old(totalSpins)
      ensures |shown| == old(totalSpins) - old(counter)
      ensures forall i :: 0 <= i < |shown| ==> shown[i] == spinPool[picks[i]]
      ensures |delays| == |shown| - 1
      ensures forall i :: 0 <= i < |delays| ==> delays[i] == Delay(old(counter) + i + 1, totalSpins)
      ensures displayed == Some(shown[|shown| - 1])
      ensures Selected() == ApplyEdits(old(Selected()), edits[..Min(|edits|, |shown|)])
    {
      ghost var start := counter;
      shown, delays := [], [];
      assert edits[..Min(|edits|, 0)] == [];
      while timerPending
        invariant Valid()
        invariant spinPool == old(spinPool) && totalSpins == old(totalSpins)
        invariant start <= counter <= totalSpins
        invariant timerPending == isSpinning
        invariant !timerPending ==> counter == totalSpins && start < counter
        invariant |shown| == counter - start
        invariant forall i :: 0 <= i < |shown| ==> shown[i] == spinPool[picks[i]]
        invariant shown != [] ==> displayed == Some(shown[|shown| - 1])
        invariant |delays| == if timerPending then |shown| else |shown| - 1
        invariant forall i :: 0 <= i < |delays| ==> delays[i] == Delay(start + i + 1, totalSpins)
        invariant Selected() == ApplyEdits(old(Selected()), edits[..Min(|edits|, |shown|)])
        decreases totalSpins - counter
      {
        var k := |shown|;
        var edit: Option<Edit> := None;
        if k < |edits| {
          edit := Some(edits[k]);
          ApplyEditsPrefix(old(Selected()), edits, k);
        }
        var step := Tick(edit, picks[k]);
        shown := shown + [displayed.value];
        if step.Next? {
          delays := delays + [step.delay];
        }
      }
    }

    /** A whole spin with its timer chain run to the end: the spin button,
        then `FinishSpin`. `rTotal` is the random value that fixes the draw
        count, `picks[k]` the index of draw k + 1, and `edits[k]` is taken in
        the gap after draw k + 1. Each gap holds at most one filter action;
        several clicks between two draws are not covered. The pool is the one
        taken at the start (see `SpinStep`); the script's callback reads the
        current pool instead (`SpinStepLive`), and the two agree when no
        filter action falls inside the spin. */
    method RunSpin(rTotal: real, picks: seq<nat>, edits: seq<Edit>)
      returns (started: bool, shown: seq<Weapon>, delays: seq<int>)
      requires Valid() && IsUnit(rTotal)
      requires filteredWeapons != [] ==> forall i :: 0 <= i < |picks| ==> picks[i] < |filteredWeapons|
      requires |picks| >= TotalSpinsFrom(rTotal)
      modifies this
      ensures Valid()
      ensures started == (!old(isSpinning) && old(filteredWeapons) != [])
      ensures !started ==> shown == [] && delays == [] && FiltersUnchanged() && SpinUnchanged()
      ensures started ==>
        && |shown| == TotalSpinsFrom(rTotal)
        && (forall i :: 0 <= i < |shown| ==> shown[i] == old(filteredWeapons)[picks[i]])
        && (forall w :: w in shown ==> w in old(filteredWeapons))
        && delays == DelaySchedule(TotalSpinsFrom(rTotal))
        && !isSpinning && !timerPending
        && displayed == Some(shown[|shown| - 1])
        && Selected() == ApplyEdits(old(Selected()), edits[..Min(|edits|, |shown| - 1)])
    {
      var first := StartSpin(rTotal, picks[0]);
      if first.None? {
        return false, [], [];
      }
      started := true;
      var rest, restDelays := FinishSpin(picks[1..], edits);
      shown, delays := [first.value.shown] + rest, [first.value.delay] + restDelays;
      assert forall i :: 1 <= i < |shown| ==> shown[i] == rest[i - 1];
      assert delays == DelaySchedule(totalSpins);
    }
  }

  /** The two-weapon catalog of the two runs below: A = (shooter, bomb, jet)
      and B = (roller, mine, bubble). */
  function TwoWeapons(): seq<Weapon>
  {
    [Weapon("A", Some(Attribute("shooter", "S")), Some(Attribute("bomb", "B")), Some(Attribute("jet", "J"))),
     Weapon("B", Some(Attribute("roller", "R")), Some(Attribute("mine", "M")), Some(Attribute("bubble", "U")))]
  }

  /** The script as written: the user selects type roller (pool [B]),
      starts a spin, then selects sub bomb, a key offered by the option
      buttons. No weapon passes both, so the next callback throws. The busy
      flag stays set with no callback left to clear it, so even after a
      reset the spin button is refused for good. */
  method LiveStepStuck() returns (offered: bool, step: Step, stuck: bool, restarted: bool)
    ensures offered && step == Crashed && stuck && !restarted
  {
    var ws := TwoWeapons();
    var r := new Roulette(ws);
    NamesKeys(ws, Type, "roller");
    NamesKeys(ws, Sub, "bomb");
    assert HasKey(ws[1], Type, "roller") && HasKey(ws[0], Sub, "bomb");
    offered := "roller" in r.uniqueTypes && "bomb" in r.uniqueSubs;
    assert ws[1..] == [ws[1]] && ws[1..][1..] == [];
    var canSpin := r.ToggleSelection(Type, "roller");
    assert r.filteredWeapons == [ws[1]];
    var first := r.StartSpin(0.0, 0);
    canSpin := r.ToggleSelection(Sub, "bomb");
    assert !Passes(ws[0], r.Selected()) && !Passes(ws[1], r.Selected());
    assert r.filteredWeapons == [];
    step := r.SpinStepLive(0);
    canSpin := r.ResetFilters();
    stuck := r.isSpinning && !r.timerPending;
    var again := r.StartSpin(0.0, 0);
    restarted := again.Some?;
  }

  /** The same run with the pool taken at the start of the spin: the
      callback draws B from that pool and the spin goes on. */
  method SnapshotStepContinues() returns (step: Step)
    ensures step.Next? && step.shown.name == "B"
  {
    var ws := TwoWeapons();
    var r := new Roulette(ws);
    assert ws[1..] == [ws[1]] && ws[1..][1..] == [];
    var canSpin := r.ToggleSelection(Type, "roller");
    assert r.filteredWeapons == [ws[1]];
    var first := r.StartSpin(0.0, 0);
    canSpin := r.ToggleSelection(Sub, "bomb");
    step := r.SpinStep(0);
  }
}
