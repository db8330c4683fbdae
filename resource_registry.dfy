/**
 * The resource registry (SyncResourceManager): at start-up it scans the candidate
 * handler classes and fills three maps keyed by data-model name, one for the
 * resource class, one for its lock manager and one for its update strategy.
 *
 * The classpath scan and reflection are replaced by a sequence of `Candidate`
 * records, one per bean definition the scan would return, carrying the facts
 * that reflection reports about the class.
 */
module ResourceRegistry {
  import opened Wrappers

  /** Fully qualified name of a Java class: a resource, lock manager or update strategy. */
  type ClassName = string

  /** One bean definition found by the scan for `@SyncResourceService`. */
  datatype Candidate = Candidate(
    beanClassName: ClassName,
    loadable: bool,                      // Class.forName(beanClassName) succeeds
    isInterface: bool,
    isSubtypeOfSeparatedResource: bool,  // assignable to SeparatedCommonDataSyncResource
    isAbstract: bool,
    // The annotation's syncDataModel. An annotation element is never null in Java, so
    // None only mirrors the source's defensive `dataModelName == null` test.
    syncDataModel: Option<string>,
    lockManager: ClassName,              // the annotation's lockManager
    updateStrategy: ClassName)           // the annotation's updateStrategy

  datatype SyncException = SyncException(message: string, className: ClassName)

  const SelectResourceFailure: string := "An Exception thrown by SyncResourceLocator"

  /** What `selectResource` does with one bean definition. */
  datatype Selection = Selected(resourceClass: ClassName) | Skipped | Thrown(error: SyncException)

  /**
   * `selectResource`: a class that cannot be loaded is an exception, not a skip;
   * a loaded class is kept exactly when it is a concrete (neither interface nor
   * abstract) subtype of SeparatedCommonDataSyncResource, and then it is the class itself.
   */
  function SelectResource(def: Candidate): (s: Selection)
    ensures s.Thrown? <==> !def.loadable
    ensures s.Thrown? ==> s.error.className == def.beanClassName
    ensures s.Selected? <==>
      def.loadable && !def.isInterface && def.isSubtypeOfSeparatedResource && !def.isAbstract
    ensures s.Selected? ==> s.resourceClass == def.beanClassName
  {
    if !def.loadable then
      Thrown(SyncException(SelectResourceFailure, def.beanClassName))
    else if def.isInterface || !def.isSubtypeOfSeparatedResource || def.isAbstract then
      Skipped
    else
      Selected(def.beanClassName)
  }

  /** The data-model name `def` is registered under by one pass of the loop in `init`, if any. */
  function RegisteredName(def: Candidate): (name: Option<string>)
    ensures name.Some? <==>
      SelectResource(def).Selected? && def.syncDataModel.Some? && def.syncDataModel.value != ""
    ensures name.Some? ==> name.value == def.syncDataModel.value && name.value != ""
  {
    if SelectResource(def).Selected? && def.syncDataModel.Some? && def.syncDataModel.value != "" then
      Some(def.syncDataModel.value)
    else
      None
  }

  /** The three maps of the manager, as a value. */
  datatype Tables = Tables(
    resources: map<string, ClassName>,
    lockManagers: map<string, ClassName>,
    updateStrategies: map<string, ClassName>)

  const NoTables: Tables := Tables(map[], map[], map[])

  /** The three maps have the same keys, and no key is the empty name. */
  ghost predicate Consistent(t: Tables)
  {
    && t.resources.Keys == t.lockManagers.Keys
    && t.resources.Keys == t.updateStrategies.Keys
    && "" !in t.resources
  }

  /** One pass of the loop in `init` over a loadable candidate: the three `put`s, or nothing. */
  function Register(t: Tables, def: Candidate): Tables
  {
    match RegisteredName(def)
    case None => t
    case Some(name) =>
      Tables(
        t.resources[name := def.beanClassName],
        t.lockManagers[name := def.lockManager],
        t.updateStrategies[name := def.updateStrategy])
  }

  /** The maps after the loop in `init` has processed `defs`, in order, starting from `t`. */
  function RegisterAll(t: Tables, defs: seq<Candidate>): Tables
    decreases |defs|
  {
    if defs == [] then t else Register(RegisterAll(t, defs[..|defs| - 1]), defs[|defs| - 1])
  }

  /** Index of the first candidate whose class cannot be loaded, or |defs| if there is none. */
  function FirstUnloadable(defs: seq<Candidate>): (k: nat)
    ensures k <= |defs|
    ensures forall i :: 0 <= i < k ==> defs[i].loadable
    ensures k < |defs| ==> !defs[k].loadable
    decreases |defs|
  {
    if defs == [] then 0
    else if !defs[0].loadable then 0
    else 1 + FirstUnloadable(defs[1..])
  }

  /** Candidate `i` is the last one in `defs` that is registered under `name`. */
  ghost predicate IsLastDeclarer(defs: seq<Candidate>, name: string, i: int)
  {
    && 0 <= i < |defs|
    && RegisteredName(defs[i]) == Some(name)
    && forall j :: i < j < |defs| ==> RegisteredName(defs[j]) != Some(name)
  }

  /** No candidate in `defs` is registered under `name`. */
  ghost predicate Undeclared(defs: seq<Candidate>, name: string)
  {
    forall i :: 0 <= i < |defs| ==> RegisteredName(defs[i]) != Some(name)
  }

  /** Registering keeps the three maps in step and never adds the empty name. */
  lemma {:induction false} RegisterAllConsistent(t: Tables, defs: seq<Candidate>)
    requires Consistent(t)
    ensures Consistent(RegisterAll(t, defs))
    decreases |defs|
  {
    if defs != [] {
      RegisterAllConsistent(t, defs[..|defs| - 1]);
    }
  }

  /**
   * A name is a key after registration exactly when it was a key before or some
   * candidate is registered under it; a name no candidate declares keeps its three
   * entries as they were.
   */
  lemma {:induction false} RegisteredKeys(t: Tables, defs: seq<Candidate>, name: string)
    ensures name in RegisterAll(t, defs).resources <==>
      name in t.resources || exists i :: 0 <= i < |defs| && RegisteredName(defs[i]) == Some(name)
    ensures Undeclared(defs, name) ==>
      var r := RegisterAll(t, defs);
      && (name in r.resources <==> name in t.resources)
      && (name in t.resources ==> r.resources[name] == t.resources[name])
      && (name in r.lockManagers <==> name in t.lockManagers)
      && (name in t.lockManagers ==> r.lockManagers[name] == t.lockManagers[name])
      && (name in r.updateStrategies <==> name in t.updateStrategies)
      && (name in t.updateStrategies ==> r.updateStrategies[name] == t.updateStrategies[name])
    decreases |defs|
  {
    if defs != [] {
      var init := defs[..|defs| - 1];
      var last := defs[|defs| - 1];
      RegisteredKeys(t, init, name);
      if RegisteredName(last) == Some(name) {
        assert RegisteredName(defs[|defs| - 1]) == Some(name);
      } else {
        if exists i :: 0 <= i < |defs| && RegisteredName(defs[i]) == Some(name) {
          var i :| 0 <= i < |defs| && RegisteredName(defs[i]) == Some(name);
          assert i < |init| && RegisteredName(init[i]) == Some(name);
        }
        if Undeclared(defs, name) {
          assert forall i :: 0 <= i < |init| ==> init[i] == defs[i];
        }
        forall i | 0 <= i < |init| && RegisteredName(init[i]) == Some(name)
          ensures RegisteredName(defs[i]) == Some(name)
        {
          assert init[i] == defs[i];
        }
      }
    }
  }

  /**
   * The three entries of a name come from one candidate: the last one registered
   * under that name, whose `put`s overwrite those of every earlier one.
   */
  lemma {:induction false} LastDeclarerWins(t: Tables, defs: seq<Candidate>, name: string, i: int)
    requires IsLastDeclarer(defs, name, i)
    ensures var r := RegisterAll(t, defs);
      && name in r.resources && r.resources[name] == defs[i].beanClassName
      && name in r.lockManagers && r.lockManagers[name] == defs[i].lockManager
      && name in r.updateStrategies && r.updateStrategies[name] == defs[i].updateStrategy
    decreases |defs|
  {
    var init := defs[..|defs| - 1];
    if i < |defs| - 1 {
      assert IsLastDeclarer(init, name, i) by {
        forall j | i < j < |init| ensures RegisteredName(init[j]) != Some(name) {
          assert init[j] == defs[j];
        }
      }
      LastDeclarerWins(t, init, name, i);
    }
  }

  /**
   * A candidate that is skipped (an interface, abstract, not a separated resource,
   * or with a null or empty data-model name) adds no entry to any map: taking it
   * out of the scan leaves the maps exactly as they are.
   */
  lemma {:induction false} SkippedCandidateIsInert(t: Tables, defs: seq<Candidate>, i: int)
    requires 0 <= i < |defs| && RegisteredName(defs[i]).None?
    ensures RegisterAll(t, defs) == RegisterAll(t, defs[..i] + defs[i + 1..])
    decreases |defs|
  {
    var init := defs[..|defs| - 1];
    var last := defs[|defs| - 1];
    if i == |defs| - 1 {
      assert defs[..i] + defs[i + 1..] == init;
    } else {
      SkippedCandidateIsInert(t, init, i);
      var without := defs[..i] + defs[i + 1..];
      assert without != [] && without[..|without| - 1] == init[..i] + init[i + 1..];
      assert without[|without| - 1] == last;
    }
  }

  /** Skipping and registering together: a skipped candidate changes nothing when appended. */
  lemma SkippedCandidateAddsNothing(t: Tables, defs: seq<Candidate>, def: Candidate)
    requires def.isInterface || def.isAbstract || !def.isSubtypeOfSeparatedResource
          || def.syncDataModel == None || def.syncDataModel == Some("")
    ensures RegisterAll(t, defs + [def]) == RegisterAll(t, defs)
  {
    assert (defs + [def])[..|defs|] == defs;
  }

  /** The object that a located resource stands for, already wired to its collaborators. */
  datatype SyncResource = SyncResource(
    resourceClass: ClassName,
    lockManager: ClassName,
    updateStrategy: ClassName)

  class SyncResourceManager {
    var resourceMap: map<string, ClassName>
    var lockManagerMap: map<string, ClassName>
    var updateStrategyMap: map<string, ClassName>

    function AsTables(): Tables
      reads this
    {
      Tables(resourceMap, lockManagerMap, updateStrategyMap)
    }

    ghost predicate Valid()
      reads this
    {
      Consistent(AsTables())
    }

    /** The map set-up that starts the Java constructor; `Create` is the whole constructor. */
    constructor()
      ensures Valid() && AsTables() == NoTables
    {
      resourceMap := map[];
      lockManagerMap := map[];
      updateStrategyMap := map[];
    }

    /**
     * `init`: registers the candidates in scan order. A class that cannot be loaded
     * stops the scan with a SyncException, leaving the maps as registered so far;
     * `Create` then discards the half-filled manager.
     */
    method Init(candidates: seq<Candidate>) returns (error: Option<SyncException>)
      requires Valid()
      modifies this
      ensures Valid()
      ensures AsTables() == RegisterAll(old(AsTables()), candidates[..FirstUnloadable(candidates)])
      ensures error.None? <==> FirstUnloadable(candidates) == |candidates|
      ensures error.Some? ==>
        error.value == SyncException(SelectResourceFailure, candidates[FirstUnloadable(candidates)].beanClassName)
    {
      var i := 0;
      while i < |candidates|
        invariant 0 <= i <= |candidates|
        invariant forall j :: 0 <= j < i ==> candidates[j].loadable
        invariant Valid()
        invariant AsTables() == RegisterAll(old(AsTables()), candidates[..i])
      {
        var def := candidates[i];
        assert candidates[..i + 1][..i] == candidates[..i];
        match SelectResource(def) {
          case Thrown(e) =>
            return Some(e);
          case Skipped =>
          case Selected(resourceClass) =>
            var dataModelName := def.syncDataModel;
            if dataModelName.Some? && dataModelName.value != "" {
              resourceMap := resourceMap[dataModelName.value := resourceClass];
              lockManagerMap := lockManagerMap[dataModelName.value := def.lockManager];
              updateStrategyMap := updateStrategyMap[dataModelName.value := def.updateStrategy];
            }
        }
        i := i + 1;
      }
      assert candidates[..i] == candidates;
      return None;
    }

    /**
     * The Java constructor: sets up empty maps and runs `init` on them. When `init`
     * throws, the exception leaves the constructor and no manager exists (null here);
     * otherwise the manager holds the registration of every candidate.
     */
    static method Create(candidates: seq<Candidate>) returns (m: SyncResourceManager?, error: Option<SyncException>)
      ensures m == null <==> error.Some?
      ensures error.None? <==> FirstUnloadable(candidates) == |candidates|
      ensures error.Some? ==>
        error.value == SyncException(SelectResourceFailure, candidates[FirstUnloadable(candidates)].beanClassName)
      ensures m != null ==> fresh(m) && m.Valid() && m.AsTables() == RegisterAll(NoTables, candidates)
    {
      var manager := new SyncResourceManager();
      error := manager.Init(candidates);
      if error.None? {
        assert candidates[..FirstUnloadable(candidates)] == candidates;
        m := manager;
      } else {
        m := null;
      }
    }

    /**
     * `locateSyncResource`: null (None) exactly for a name that is not registered;
     * otherwise the resource of that name wired with that name's lock manager and
     * update strategy.
     */
    function LocateSyncResource(dataModelName: string): (r: Option<SyncResource>)
      reads this
      requires Valid()
      ensures r.None? <==> dataModelName !in resourceMap
      ensures r.Some? ==>
        && r.value.resourceClass == resourceMap[dataModelName]
        && r.value.lockManager == lockManagerMap[dataModelName]
        && r.value.updateStrategy == updateStrategyMap[dataModelName]
    {
      if dataModelName !in resourceMap then None
      else Some(SyncResource(
        resourceMap[dataModelName],
        lockManagerMap[dataModelName],
        updateStrategyMap[dataModelName]))
    }

    /** `getAllDataModelNames`: exactly the names that locate a resource; never the empty name. */
    function GetAllDataModelNames(): (names: set<string>)
      reads this
      requires Valid()
      ensures forall n :: n in names <==> LocateSyncResource(n).Some?
      ensures "" !in names
    {
      resourceMap.Keys
    }
  }

  /**
   * After a successful `Create`, a name locates the resource of the
   * last candidate registered under it, wired with that candidate's lock manager and
   * update strategy.
   */
  lemma LocateFindsLastDeclarer(m: SyncResourceManager, defs: seq<Candidate>, name: string, i: int)
    requires m.Valid() && m.AsTables() == RegisterAll(NoTables, defs)
    requires IsLastDeclarer(defs, name, i)
    ensures m.LocateSyncResource(name)
         == Some(SyncResource(defs[i].beanClassName, defs[i].lockManager, defs[i].updateStrategy))
  {
    LastDeclarerWins(NoTables, defs, name, i);
  }

  /** After a successful `Create`, a name no candidate declares locates nothing. */
  lemma LocateUndeclaredIsNull(m: SyncResourceManager, defs: seq<Candidate>, name: string)
    requires m.Valid() && m.AsTables() == RegisterAll(NoTables, defs)
    requires Undeclared(defs, name)
    ensures m.LocateSyncResource(name).None?
  {
    RegisteredKeys(NoTables, defs, name);
  }

  /**
   * After a successful `Create`, the registered names are exactly
   * the names some candidate is registered under, whatever order the scan used.
   */
  lemma AllNamesAreDeclaredNames(m: SyncResourceManager, defs: seq<Candidate>)
    requires m.Valid() && m.AsTables() == RegisterAll(NoTables, defs)
    ensures forall n :: n in m.GetAllDataModelNames() <==>
      exists i :: 0 <= i < |defs| && RegisteredName(defs[i]) == Some(n)
  {
    forall n ensures n in m.GetAllDataModelNames() <==>
      exists i :: 0 <= i < |defs| && RegisteredName(defs[i]) == Some(n)
    {
      RegisteredKeys(NoTables, defs, n);
    }
  }
}
