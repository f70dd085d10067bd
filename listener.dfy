/**
 * DeviceAppsChangedListener: keeps at most one OS broadcast receiver for
 * package changes and forwards each package broadcast, classified, to the
 * plugin's callback together with the current event sink.
 */
module AppsChangedListener {
  import opened Wrappers
  import JavaString

  const ACTION_PACKAGE_ADDED: string := "android.intent.action.PACKAGE_ADDED"
  const ACTION_PACKAGE_REPLACED: string := "android.intent.action.PACKAGE_REPLACED"
  const ACTION_PACKAGE_CHANGED: string := "android.intent.action.PACKAGE_CHANGED"
  const ACTION_PACKAGE_REMOVED: string := "android.intent.action.PACKAGE_REMOVED"
  const PACKAGE_SCHEME: string := "package"
  /** The text `onReceive` deletes from the data string to get the package name. */
  const PACKAGE_DATA_PREFIX: string := "package:"

  /** The extras the receiver reads: EXTRA_REPLACING and EXTRA_CHANGED_COMPONENT_NAME_LIST. */
  datatype Extras = Extras(replacing: Option<bool>, changedComponentNames: Option<seq<string>>)

  /** A received broadcast: its action, its data string (`package:<name>`) and its extras. */
  datatype Intent = Intent(action: string, dataString: string, extras: Extras)

  /** The four callbacks of DeviceAppsChangedListenerInterface, with their package name. */
  datatype PackageCallback =
    | Installed(packageName: string)
    | Updated(packageName: string)
    | Uninstalled(packageName: string)
    | Changed(packageName: string)

  /** The filter `register` installs: four package actions, data scheme "package". */
  datatype IntentFilter = IntentFilter(actions: set<string>, dataSchemes: set<string>)

  function PackageIntentFilter(): IntentFilter {
    IntentFilter({ACTION_PACKAGE_ADDED, ACTION_PACKAGE_REPLACED, ACTION_PACKAGE_CHANGED, ACTION_PACKAGE_REMOVED},
                 {PACKAGE_SCHEME})
  }

  /** `getBoolean(EXTRA_REPLACING, false)`: an absent flag reads as false. */
  function Replacing(extras: Extras): bool {
    extras.replacing.GetOr(false)
  }

  /** `getDataString().replace("package:", "")`. */
  function PackageNameOf(dataString: string): string {
    JavaString.RemoveAll(dataString, PACKAGE_DATA_PREFIX)
  }

  /** The receiver dereferences the component list only for a CHANGED broadcast. */
  predicate Receivable(intent: Intent) {
    intent.action == ACTION_PACKAGE_CHANGED ==> intent.extras.changedComponentNames.Some?
  }

  /**
   * The `onReceive` switch: at most one callback per broadcast, carrying the
   * data string with every "package:" cut out.
   */
  function Classify(intent: Intent): (r: Option<PackageCallback>)
    requires Receivable(intent)
    ensures r.Some? ==> r.value.packageName == PackageNameOf(intent.dataString)
    ensures r.Some? ==> intent.action in PackageIntentFilter().actions
    ensures intent.action == ACTION_PACKAGE_ADDED ==>
              r == (if Replacing(intent.extras) then None else Some(Installed(PackageNameOf(intent.dataString))))
    ensures intent.action == ACTION_PACKAGE_REPLACED ==> r == Some(Updated(PackageNameOf(intent.dataString)))
    ensures intent.action == ACTION_PACKAGE_REMOVED ==>
              r == (if Replacing(intent.extras) then None else Some(Uninstalled(PackageNameOf(intent.dataString))))
    ensures intent.action == ACTION_PACKAGE_CHANGED ==>
              var names := intent.extras.changedComponentNames.value;
              (r.Some? <==> |names| == 1 && JavaString.EqualsIgnoreCase(names[0], PackageNameOf(intent.dataString)))
              && (r.Some? ==> r.value.Changed?)
    ensures r.Some? && r.value.Installed? ==> intent.action == ACTION_PACKAGE_ADDED && !Replacing(intent.extras)
    ensures r.Some? && r.value.Updated? ==> intent.action == ACTION_PACKAGE_REPLACED
    ensures r.Some? && r.value.Uninstalled? ==> intent.action == ACTION_PACKAGE_REMOVED && !Replacing(intent.extras)
    ensures r.Some? && r.value.Changed? ==> intent.action == ACTION_PACKAGE_CHANGED
  {
    var packageName := PackageNameOf(intent.dataString);
    var replacing := Replacing(intent.extras);
    if intent.action == ACTION_PACKAGE_ADDED then
      if !replacing then Some(Installed(packageName)) else None
    else if intent.action == ACTION_PACKAGE_REPLACED then
      Some(Updated(packageName))
    else if intent.action == ACTION_PACKAGE_CHANGED then
      var components := intent.extras.changedComponentNames.value;
      if |components| == 1 && JavaString.EqualsIgnoreCase(components[0], packageName) then Some(Changed(packageName))
      else None
    else if intent.action == ACTION_PACKAGE_REMOVED then
      if !replacing then Some(Uninstalled(packageName)) else None
    else None
  }

  /** The callbacks of one broadcast: none or one. */
  function Callbacks(intent: Intent): seq<PackageCallback>
    requires Receivable(intent)
  {
    match Classify(intent) case Some(c) => [c] case None => []
  }

  /** The callbacks a run of broadcasts produces, in delivery order. */
  function ClassifyAll(intents: seq<Intent>): (r: seq<PackageCallback>)
    requires forall i :: 0 <= i < |intents| ==> Receivable(intents[i])
    ensures |r| <= |intents|
    ensures forall i :: 0 <= i < |r| ==> exists j :: 0 <= j < |intents| && Classify(intents[j]) == Some(r[i])
  {
    if intents == [] then []
    else
      Callbacks(intents[0]) + ClassifyAll(intents[1..])
  }

  /** Broadcasts are reported in the order they arrive: one more broadcast appends its callback. */
  lemma {:induction false} ClassifyAllSnoc(intents: seq<Intent>, intent: Intent)
    requires forall i :: 0 <= i < |intents| ==> Receivable(intents[i])
    requires Receivable(intent)
    ensures ClassifyAll(intents + [intent]) == ClassifyAll(intents) + Callbacks(intent)
  {
    var all := intents + [intent];
    if intents == [] {
      assert all[1..] == [];
      assert ClassifyAll(all) == Callbacks(all[0]) + ClassifyAll(all[1..]);
    } else {
      assert all[0] == intents[0];
      assert all[1..] == intents[1..] + [intent];
      ClassifyAllSnoc(intents[1..], intent);
      assert ClassifyAll(all) == Callbacks(all[0]) + ClassifyAll(all[1..]);
    }
  }

  /** The callbacks of the first `i + 1` broadcasts extend those of the first `i`. */
  lemma ClassifyAllPrefix(intents: seq<Intent>, i: nat)
    requires i < |intents|
    requires forall j :: 0 <= j < |intents| ==> Receivable(intents[j])
    ensures ClassifyAll(intents[..i + 1]) == ClassifyAll(intents[..i]) + Callbacks(intents[i])
  {
    assert intents[..i + 1] == intents[..i] + [intents[i]];
    ClassifyAllSnoc(intents[..i], intents[i]);
  }

  /**
   * An in-place upgrade is broadcast as REMOVED and ADDED, both replacing,
   * then REPLACED: it is reported as one update and nothing else.
   */
  lemma UpgradeIsOneUpdate(dataString: string, extras: Extras)
    requires extras.replacing == Some(true)
    ensures ClassifyAll([Intent(ACTION_PACKAGE_REMOVED, dataString, extras),
                         Intent(ACTION_PACKAGE_ADDED, dataString, extras),
                         Intent(ACTION_PACKAGE_REPLACED, dataString, extras)])
            == [Updated(PackageNameOf(dataString))]
  {
    var intents := [Intent(ACTION_PACKAGE_REMOVED, dataString, extras),
                    Intent(ACTION_PACKAGE_ADDED, dataString, extras),
                    Intent(ACTION_PACKAGE_REPLACED, dataString, extras)];
    var name := PackageNameOf(dataString);
    assert Classify(intents[0]) == None;
    assert Classify(intents[1]) == None;
    assert Classify(intents[2]) == Some(Updated(name));
    assert ClassifyAll(intents[2..]) == [Updated(name)] + ClassifyAll(intents[3..]);
    assert ClassifyAll(intents[1..]) == ClassifyAll(intents[1..][1..]);
    assert intents[1..][1..] == intents[2..];
  }

  /** The usual data string `package:<name>` yields `<name>`. */
  lemma PackageNameOfSchemeData(name: string)
    requires !JavaString.Contains(name, PACKAGE_DATA_PREFIX)
    ensures PackageNameOf(PACKAGE_DATA_PREFIX + name) == name
  {
    JavaString.StripsSinglePrefix(PACKAGE_DATA_PREFIX, name);
  }

  /**
   * Every occurrence is cut, not just a leading one: one character between
   * two copies of the prefix is all that is left of them.
   */
  lemma PackageNameOfCutsInnerOccurrences(c: char, name: string)
    requires c != PACKAGE_DATA_PREFIX[0] && !JavaString.Contains(name, PACKAGE_DATA_PREFIX)
    ensures PackageNameOf(PACKAGE_DATA_PREFIX + [c] + PACKAGE_DATA_PREFIX + name) == [c] + name
  {
    var tail := [c] + PACKAGE_DATA_PREFIX + name;
    assert PACKAGE_DATA_PREFIX + [c] + PACKAGE_DATA_PREFIX + name == PACKAGE_DATA_PREFIX + tail;
    JavaString.RemoveAllLeading(PACKAGE_DATA_PREFIX, tail);
    assert tail[0] != PACKAGE_DATA_PREFIX[0];
    JavaString.RemoveAllSkip(tail, PACKAGE_DATA_PREFIX);
    assert tail[1..] == PACKAGE_DATA_PREFIX + name;
    JavaString.StripsSinglePrefix(PACKAGE_DATA_PREFIX, name);
  }

  /**
   * Text that closes up around a cut is not scanned again: "pa" before the
   * prefix and "ckage:" after it join into a new "package:" that stays.
   */
  lemma PackageNameOfIsSinglePass(rest: string)
    requires !JavaString.Contains(rest, PACKAGE_DATA_PREFIX)
    ensures PackageNameOf("pa" + PACKAGE_DATA_PREFIX + rest) == "pa" + rest
    ensures PackageNameOf("pa" + PACKAGE_DATA_PREFIX + "ckage:" + rest) == PACKAGE_DATA_PREFIX + rest
  {
    SkipsPa(rest);
    var closing := "ckage:" + rest;
    JavaString.NotContainsAfterHead("ckage:", rest, PACKAGE_DATA_PREFIX);
    SkipsPa(closing);
    assert "pa" + PACKAGE_DATA_PREFIX + "ckage:" + rest == "pa" + PACKAGE_DATA_PREFIX + closing;
    assert "pa" + closing == PACKAGE_DATA_PREFIX + rest;
  }

  lemma SkipsPa(rest: string)
    requires !JavaString.Contains(rest, PACKAGE_DATA_PREFIX)
    ensures PackageNameOf("pa" + PACKAGE_DATA_PREFIX + rest) == "pa" + rest
  {
    var s := "pa" + PACKAGE_DATA_PREFIX + rest;
    forall i | 0 <= i < 2 ensures !JavaString.OccursAt(s, PACKAGE_DATA_PREFIX, i) {
      if i == 0 {
        assert s[i..i + |PACKAGE_DATA_PREFIX|][2] != PACKAGE_DATA_PREFIX[2];
      } else {
        assert s[i..i + |PACKAGE_DATA_PREFIX|][0] != PACKAGE_DATA_PREFIX[0];
      }
    }
    JavaString.RemoveAllFirstOccurrence("pa", PACKAGE_DATA_PREFIX, rest);
  }

  /** The callback calls that deliver `events` with `sink`, in order. */
  function Deliveries(events: seq<PackageCallback>, sink: Option<EventSink>): (r: seq<OsCall>)
    ensures |r| == |events|
    ensures forall i :: 0 <= i < |r| ==> r[i] == Callback(events[i], sink)
  {
    if events == [] then []
    else Deliveries(events[..|events| - 1], sink) + [Callback(events[|events| - 1], sink)]
  }

  lemma DeliveriesAppend(a: seq<PackageCallback>, b: seq<PackageCallback>, sink: Option<EventSink>)
    ensures Deliveries(a + b, sink) == Deliveries(a, sink) + Deliveries(b, sink)
  {
    assert |Deliveries(a + b, sink)| == |Deliveries(a, sink) + Deliveries(b, sink)|;
  }

  /** Delivering `done` and then `next` is delivering `done + next`. */
  lemma DeliveriesExtend(start: seq<OsCall>, middle: seq<OsCall>, end: seq<OsCall>,
                         done: seq<PackageCallback>, next: seq<PackageCallback>, sink: Option<EventSink>)
    requires middle == start + Deliveries(done, sink)
    requires end == middle + Deliveries(next, sink)
    ensures end == start + Deliveries(done + next, sink)
  {
    DeliveriesAppend(done, next, sink);
  }

  /** Java's anonymous BroadcastReceiver; only its identity matters. */
  class PackageReceiver {
    constructor () {}
  }

  /** A Flutter EventChannel.EventSink supplied by the caller; only its identity matters. */
  class EventSink {}

  /** What the listener asks of the OS and of the plugin's callback, in order. */
  datatype OsCall =
    | RegisterReceiver(receiver: PackageReceiver, filter: IntentFilter)
    | UnregisterReceiver(receiver: PackageReceiver)
    | EndOfStream(sink: EventSink)
    | Callback(event: PackageCallback, events: Option<EventSink>)

  /** The receivers the OS holds registered after the calls in `calls`. */
  ghost function LiveReceivers(calls: seq<OsCall>): multiset<PackageReceiver> {
    if calls == [] then multiset{}
    else
      var earlier := LiveReceivers(calls[..|calls| - 1]);
      match calls[|calls| - 1]
      case RegisterReceiver(r, _) => earlier + multiset{r}
      case UnregisterReceiver(r) => earlier - multiset{r}
      case _ => earlier
  }

  /** The calls `unregister` makes for a given receiver field and sink field. */
  function TeardownCalls(receiver: Option<PackageReceiver>, sink: Option<EventSink>): seq<OsCall> {
    (match receiver case Some(r) => [UnregisterReceiver(r)] case None => [])
    + (match sink case Some(s) => [EndOfStream(s)] case None => [])
  }

  class DeviceAppsChangedListener {
    var eventSink: Option<EventSink>
    var appsBroadcastReceiver: Option<PackageReceiver>
    /** The OS and callback calls made so far (the OS is not part of the program). */
    ghost var osCalls: seq<OsCall>

    /** The OS holds exactly the receiver in `appsBroadcastReceiver`, or none. */
    ghost predicate Valid()
      reads this
    {
      LiveReceivers(osCalls) == match appsBroadcastReceiver case Some(r) => multiset{r} case None => multiset{}
    }

    /** Number of live OS registrations made by this listener. */
    ghost function LiveRegistrations(): nat
      reads this
    {
      |LiveReceivers(osCalls)|
    }

    constructor ()
      ensures Valid()
      ensures eventSink == None && appsBroadcastReceiver == None && osCalls == []
    {
      eventSink := None;
      appsBroadcastReceiver := None;
      osCalls := [];
    }

    /**
     * Releases the receiver and ends the current stream, each only if held;
     * afterwards nothing is registered and no sink is held.
     */
    method Unregister()
      requires Valid()
      modifies this
      ensures Valid()
      ensures appsBroadcastReceiver == None && eventSink == None
      ensures osCalls == old(osCalls) + TeardownCalls(old(appsBroadcastReceiver), old(eventSink))
      ensures LiveRegistrations() == 0
    {
      if appsBroadcastReceiver.Some? {
        osCalls := osCalls + [UnregisterReceiver(appsBroadcastReceiver.value)];
        appsBroadcastReceiver := None;
      }
      if eventSink.Some? {
        osCalls := osCalls + [EndOfStream(eventSink.value)];
        eventSink := None;
      }
    }

    /**
     * Tears down whatever was held, then registers one fresh receiver for the
     * package actions and holds `events`: exactly one registration is live.
     */
    method Register(events: EventSink)
      requires Valid()
      modifies this
      ensures Valid()
      ensures appsBroadcastReceiver.Some? && fresh(appsBroadcastReceiver.value)
      ensures eventSink == Some(events)
      ensures osCalls == old(osCalls) + TeardownCalls(old(appsBroadcastReceiver), old(eventSink))
                         + [RegisterReceiver(appsBroadcastReceiver.value, PackageIntentFilter())]
      ensures LiveReceivers(osCalls) == multiset{appsBroadcastReceiver.value}
      ensures LiveRegistrations() == 1
    {
      Unregister();
      if appsBroadcastReceiver.None? {
        var receiver := new PackageReceiver();
        appsBroadcastReceiver := Some(receiver);
      }
      var filter := PackageIntentFilter();
      eventSink := Some(events);
      osCalls := osCalls + [RegisterReceiver(appsBroadcastReceiver.value, filter)];
    }

    /** A second `unregister` right after one makes no call at all. */
    method UnregisterTwice()
      requires Valid()
      modifies this
      ensures Valid()
      ensures osCalls == old(osCalls) + TeardownCalls(old(appsBroadcastReceiver), old(eventSink))
    {
      Unregister();
      ghost var afterFirst := osCalls;
      Unregister();
      assert osCalls == afterFirst;
    }

    method OnPackageInstalled(packageName: string)
      modifies this`osCalls
      ensures osCalls == old(osCalls) + [Callback(Installed(packageName), eventSink)]
    {
      osCalls := osCalls + [Callback(Installed(packageName), eventSink)];
    }

    method OnPackageUpdated(packageName: string)
      modifies this`osCalls
      ensures osCalls == old(osCalls) + [Callback(Updated(packageName), eventSink)]
    {
      osCalls := osCalls + [Callback(Updated(packageName), eventSink)];
    }

    method OnPackageUninstalled(packageName: string)
      modifies this`osCalls
      ensures osCalls == old(osCalls) + [Callback(Uninstalled(packageName), eventSink)]
    {
      osCalls := osCalls + [Callback(Uninstalled(packageName), eventSink)];
    }

    method OnPackageChanged(packageName: string)
      modifies this`osCalls
      ensures osCalls == old(osCalls) + [Callback(Changed(packageName), eventSink)]
    {
      osCalls := osCalls + [Callback(Changed(packageName), eventSink)];
    }

    /**
     * The receiver's `onReceive`: forwards the classified broadcast, if any,
     * to the callback with the current sink; the registration is untouched.
     */
    method OnReceive(intent: Intent)
      requires Valid()
      requires Receivable(intent)
      modifies this`osCalls
      ensures Valid()
      ensures osCalls == old(osCalls)
                         + match Classify(intent) case Some(c) => [Callback(c, eventSink)] case None => []
    {
      var callback := Classify(intent);
      match callback {
        case Some(Installed(name)) => OnPackageInstalled(name);
        case Some(Updated(name)) => OnPackageUpdated(name);
        case Some(Uninstalled(name)) => OnPackageUninstalled(name);
        case Some(Changed(name)) => OnPackageChanged(name);
        case None =>
      }
    }

    /**
     * The receiver's `onReceive` for a run of broadcasts: the callbacks go
     * out in arrival order, all with the current sink.
     */
    method OnReceiveAll(intents: seq<Intent>)
      requires Valid()
      requires forall i :: 0 <= i < |intents| ==> Receivable(intents[i])
      modifies this`osCalls
      ensures Valid()
      ensures osCalls == old(osCalls) + Deliveries(ClassifyAll(intents), eventSink)
    {
      var i := 0;
      while i < |intents|
        invariant 0 <= i <= |intents|
        invariant Valid()
        invariant osCalls == old(osCalls) + Deliveries(ClassifyAll(intents[..i]), eventSink)
      {
        ghost var before := osCalls;
        ghost var done := ClassifyAll(intents[..i]);
        ghost var next := Callbacks(intents[i]);
        OnReceive(intents[i]);
        assert osCalls == before + Deliveries(next, eventSink) by {
          assert Deliveries([], eventSink) == [];
          if next != [] {
            assert Deliveries(next, eventSink) == [Callback(next[0], eventSink)];
          }
        }
        DeliveriesExtend(old(osCalls), before, osCalls, done, next, eventSink);
        ClassifyAllPrefix(intents, i);
        i := i + 1;
      }
      assert intents[..i] == intents;
    }

    /** An in-place upgrade reaches the callback as exactly one update. */
    method OnUpgrade(dataString: string, extras: Extras)
      requires Valid()
      requires extras.replacing == Some(true)
      modifies this`osCalls
      ensures Valid()
      ensures osCalls == old(osCalls) + [Callback(Updated(PackageNameOf(dataString)), eventSink)]
    {
      UpgradeIsOneUpdate(dataString, extras);
      OnReceiveAll([Intent(ACTION_PACKAGE_REMOVED, dataString, extras),
                    Intent(ACTION_PACKAGE_ADDED, dataString, extras),
                    Intent(ACTION_PACKAGE_REPLACED, dataString, extras)]);
      assert Deliveries([Updated(PackageNameOf(dataString))], eventSink)
          == [Callback(Updated(PackageNameOf(dataString)), eventSink)];
    }
  }
}
