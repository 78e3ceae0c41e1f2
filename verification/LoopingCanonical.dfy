/** The canonical form of a stored dashboard or alert: what is left after server bookkeeping and known empty
    defaults are popped from a copy of the object. */
module LoopingCanonical {
  import opened Wrappers
  import opened Json
  import opened Seqs
  import opened VaultObjects

  datatype CanonicalError = NotIdentified | TeamMismatch | UnexpectedValue

  const BOOKKEEPING := ["id", "createdAt", "updatedAt", "url"]
  const ALERT_STATE := ["state", "executionErrors", "history"]
  /** A field that must be missing or hold one of some values that mean nothing. */
  datatype Default = Default(key: string, allowed: set<Json>)

  const DASHBOARD_DEFAULTS := [
    Default("savedQuery", {Null}), Default("savedQueryLanguage", {Null}),
    Default("savedFilterValues", {List([])}), Default("containers", {List([])})]

  // In Python False equals 0.
  const ALERT_DEFAULTS := [
    Default("note", {Null, Str("")}), Default("numConsecutiveWindows", {Null, Str("")}), Default("savedSearchId", {Null, Str("")}),
    Default("groupBy", {Null, Str("")}), Default("thresholdMax", {Null, Str("")}), Default("scheduleStartAt", {Null, Str("")}),
    Default("scheduleOffsetMinutes", {Null, Num(0), Bool(false)})]

  function Defaults(kind: Kind): seq<Default> {
    if kind.Dashboard? then DASHBOARD_DEFAULTS else ALERT_DEFAULTS
  }

  function State(kind: Kind): seq<string> {
    if kind.Dashboard? then [] else ALERT_STATE
  }

  function KeysOf(defaults: seq<Default>): set<string> {
    set i | 0 <= i < |defaults| :: defaults[i].key
  }

  /** Everything that does not belong to the canonical form. */
  function Stripped(kind: Kind): set<string> {
    {"teamId"} + Elements(BOOKKEEPING) + Elements(State(kind)) + KeysOf(Defaults(kind))
  }

  predicate Identified(obj: Object) {
    "id" in obj && obj["id"].Str? && obj["id"].s != ""
  }

  /** The stripped fields hold nothing that would be configuration. */
  predicate OnlyDefaults(kind: Kind, obj: Object) {
    forall i :: 0 <= i < |Defaults(kind)| ==> Harmless(Defaults(kind)[i], obj)
  }

  predicate Harmless(default: Default, obj: Object) {
    default.key in obj ==> obj[default.key] in default.allowed
  }

  predicate OwnTeam(kind: Kind, obj: Object, team: Json) {
    if "teamId" in obj then obj["teamId"] == team else kind.Dashboard?
  }

  function CanonicalForm(kind: Kind, obj: Object, team: Json): Result<Object, CanonicalError> {
    if !Identified(obj) then Err(NotIdentified)
    else if !OwnTeam(kind, obj, team) then Err(TeamMismatch)
    else if !OnlyDefaults(kind, obj) then Err(UnexpectedValue)
    else Ok(Without(obj, Stripped(kind)))
  }

  /** Pops a list of keys from a dictionary, one at a time. */
  method PopAll(obj: Object, keys: seq<string>) returns (value: Object)
    ensures value == Without(obj, Elements(keys))
  {
    value := obj;
    var i := 0;
    while i < |keys|
      invariant 0 <= i <= |keys|
      invariant value == Without(obj, Elements(keys[..i]))
    {
      value := value - {keys[i]};
      assert Elements(keys[..i + 1]) == Elements(keys[..i]) + {keys[i]};
      i := i + 1;
    }
    assert keys[..i] == keys;
  }

  lemma WithoutTwice(obj: Object, a: set<string>, b: set<string>)
    ensures Without(Without(obj, a), b) == Without(obj, a + b)
  {
  }

  /** Pops fields that must be missing or harmless, one at a time, and stops at the first that is neither. */
  method PopDefaults(obj: Object, defaults: seq<Default>) returns (value: Option<Object>)
    requires forall i, j :: 0 <= i < j < |defaults| ==> defaults[i].key != defaults[j].key
    ensures value.Some? <==> forall i :: 0 <= i < |defaults| ==> Harmless(defaults[i], obj)
    ensures value.Some? ==> value.value == Without(obj, KeysOf(defaults))
  {
    var rest := obj;
    var i := 0;
    while i < |defaults|
      invariant 0 <= i <= |defaults|
      invariant forall j :: 0 <= j < i ==> Harmless(defaults[j], obj)
      invariant forall k :: k in rest <==> k in obj && forall j :: 0 <= j < i ==> defaults[j].key != k
      invariant forall k :: k in rest ==> rest[k] == obj[k]
    {
      var key := defaults[i].key;
      if key in rest && rest[key] !in defaults[i].allowed { return None; }
      rest := rest - {key};
      i := i + 1;
    }
    value := Some(rest);
  }

  lemma DefaultKeysDiffer(kind: Kind)
    ensures forall i, j :: 0 <= i < j < |Defaults(kind)| ==> Defaults(kind)[i].key != Defaults(kind)[j].key
  {
  }

  lemma DefaultsStay(kind: Kind, obj: Object, dropped: set<string>)
    requires dropped !! KeysOf(Defaults(kind))
    ensures (forall i :: 0 <= i < |Defaults(kind)| ==> Harmless(Defaults(kind)[i], Without(obj, dropped))) <==> OnlyDefaults(kind, obj)
  {
    hide Defaults;
    forall i | 0 <= i < |Defaults(kind)| ensures Harmless(Defaults(kind)[i], Without(obj, dropped)) <==> Harmless(Defaults(kind)[i], obj) {
      assert Defaults(kind)[i].key in KeysOf(Defaults(kind));
    }
  }

  lemma OwnKeysDiffer(kind: Kind)
    ensures {"teamId"} + Elements(BOOKKEEPING) + Elements(State(kind)) !! KeysOf(Defaults(kind))
  {
  }

  method Canonical(kind: Kind, obj: Object, team: Json) returns (r: Result<Object, CanonicalError>)
    requires !kind.Search?
    ensures r == CanonicalForm(kind, obj, team)
  {
    hide Without, Defaults, State, Elements, KeysOf, OnlyDefaults, Identified;
    if !Identified(obj) { return Err(NotIdentified); }
    var value := obj;
    if "teamId" in value {
      if value["teamId"] != team { return Err(TeamMismatch); }
      value := value - {"teamId"};
    } else if kind.Alert? {
      return Err(TeamMismatch);
    }
    TeamPopped(obj);
    value := PopAll(value, BOOKKEEPING);
    WithoutTwice(obj, {"teamId"}, Elements(BOOKKEEPING));
    value := PopAll(value, State(kind));
    WithoutTwice(obj, {"teamId"} + Elements(BOOKKEEPING), Elements(State(kind)));
    var dropped := {"teamId"} + Elements(BOOKKEEPING) + Elements(State(kind));
    OwnKeysDiffer(kind);
    DefaultKeysDiffer(kind);
    DefaultsStay(kind, obj, dropped);
    var rest := PopDefaults(value, Defaults(kind));
    if rest.None? { return Err(UnexpectedValue); }
    WithoutTwice(obj, dropped, KeysOf(Defaults(kind)));
    r := Ok(rest.value);
  }

  lemma TeamPopped(obj: Object)
    ensures Without(obj, {"teamId"}) == if "teamId" in obj then obj - {"teamId"} else obj
  {
  }

  /** Whatever bookkeeping and defaults the server adds to a created object, the canonical form is the object that was
      sent; and an object has that form only if it agrees with what was sent on every other field. */
  lemma CanonicalExactly(kind: Kind, sent: Object, stored: Object, team: Json)
    requires sent.Keys !! Stripped(kind)
    requires Identified(stored) && OwnTeam(kind, stored, team) && OnlyDefaults(kind, stored)
    ensures CanonicalForm(kind, stored, team) == Ok(sent) <==>
      sent.Keys <= stored.Keys <= sent.Keys + Stripped(kind) && forall k :: k in sent ==> stored[k] == sent[k]
  {
    hide Stripped;
    var form := Without(stored, Stripped(kind));
    if form == sent {
      assert forall k :: k in sent <==> k in form;
    }
  }
}
