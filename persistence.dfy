/**
 * How the screen restores and saves its flags in the browser's key/value store.
 *
 * The store keeps text; the model keeps, for each key, what `JSON.parse` makes of that
 * text: a JSON value, or a parse failure. Reading a missing key yields `None`, as
 * `getItem` yields `null`.
 */
module Persistence {
  import opened Progress

  datatype Option<T> = None | Some(value: T)

  /** A JSON value as `JSON.parse` produces it. */
  datatype Json =
    | JNull
    | JBool(b: bool)
    | JNumber(n: real)
    | JString(s: string)
    | JArray(elems: seq<Json>)
    | JObject(members: map<string, Json>)

  /** What a stored text parses to. `Unparsable` also stands for the empty string, which the
      loader turns away before parsing, with the same outcome. */
  datatype Item = Unparsable | Parsed(value: Json)

  /** JavaScript's `!!v` on a parsed value: `null`, `false`, `0` and `""` are false, every
      other value (objects and arrays included) is true. */
  predicate Truthy(v: Json) {
    match v
    case JNull => false
    case JBool(b) => b
    case JNumber(n) => n != 0.0
    case JString(s) => s != ""
    case JArray(_) => true
    case JObject(_) => true
  }

  /** `!!parsed.<name>` on a value that is not `null`: a member of an object, and
      `undefined` (so false) when the member is absent or the value is no object. */
  predicate Field(v: Json, name: string) {
    v.JObject? && name in v.members && Truthy(v.members[name])
  }

  /** The load effect: keeps `current` when the key is missing, the text does not parse, or
      it parses to `null` (reading a member of `null` throws and the loader swallows it);
      otherwise every flag becomes its member coerced to a boolean. */
  function Restore(current: ProgressState, item: Option<Item>): ProgressState {
    match item
    case None => current
    case Some(Unparsable) => current
    case Some(Parsed(JNull)) => current
    case Some(Parsed(v)) =>
      ProgressState(Field(v, "whyDone"), Field(v, "heartDone"), Field(v, "codeDone"), Field(v, "questionsDone"))
  }

  function Lookup(store: map<string, Item>, key: string): Option<Item> {
    if key in store then Some(store[key]) else None
  }

  /** `JSON.stringify` of the payload, as `JSON.parse` will read it back. */
  function Encode(s: ProgressState): Json {
    JObject(map["whyDone" := JBool(s.whyDone), "heartDone" := JBool(s.heartDone),
                "codeDone" := JBool(s.codeDone), "questionsDone" := JBool(s.questionsDone)])
  }

  /** The save effect: writes the payload under `key`, unless the store refuses the write
      (the quota is exceeded), which the saver swallows. */
  function Save(store: map<string, Item>, key: string, s: ProgressState, full: bool): (r: map<string, Item>)
    ensures forall k :: k != key ==> Lookup(r, k) == Lookup(store, k)
    ensures !full ==> Lookup(r, key) == Some(Parsed(Encode(s)))
    ensures full ==> r == store
  {
    if full then store else store[key := Parsed(Encode(s))]
  }

  /** A missing key leaves the flags as they were, so a fresh session stays all false. */
  lemma RestoreMissing(current: ProgressState, store: map<string, Item>, key: string)
    requires key !in store
    ensures Restore(current, Lookup(store, key)) == current
    ensures Restore(Initial, Lookup(store, key)) == Initial
  {
  }

  /** A text that fails to parse, or parses to `null`, is ignored. */
  lemma RestoreCorrupt(current: ProgressState, item: Item)
    requires item == Unparsable || item == Parsed(JNull)
    ensures Restore(current, Some(item)) == current
  {
  }

  /** A record that parses to anything but `null` decides every flag, an absent member giving false. */
  lemma RestoreRecord(current: ProgressState, v: Json)
    requires v != JNull
    ensures var r := Restore(current, Some(Parsed(v)));
      (r.whyDone <==> v.JObject? && "whyDone" in v.members && Truthy(v.members["whyDone"])) &&
      (r.heartDone <==> v.JObject? && "heartDone" in v.members && Truthy(v.members["heartDone"])) &&
      (r.codeDone <==> v.JObject? && "codeDone" in v.members && Truthy(v.members["codeDone"])) &&
      (r.questionsDone <==> v.JObject? && "questionsDone" in v.members && Truthy(v.members["questionsDone"]))
    ensures !v.JObject? ==> Restore(current, Some(Parsed(v))) == Initial
  {
  }

  /** Saving and then loading under the same key gives back the saved flags, whatever the
      flags were before loading. */
  lemma SaveThenRestore(store: map<string, Item>, key: string, s: ProgressState, current: ProgressState)
    ensures Restore(current, Lookup(Save(store, key, s, false), key)) == s
  {
  }

  /** Saving under one key does not disturb what another key restores. */
  lemma SaveKeepsOtherKeys(store: map<string, Item>, key: string, other: string, s: ProgressState, full: bool, current: ProgressState)
    requires other != key
    ensures Restore(current, Lookup(Save(store, key, s, full), other)) == Restore(current, Lookup(store, other))
  {
  }

  /** The browser's per-origin key/value store. */
  class BrowserStorage {
    var items: map<string, Item>
    /** Whether `setItem` throws because the quota is exceeded. */
    var full: bool

    constructor (items: map<string, Item>, full: bool)
      ensures this.items == items && this.full == full
    {
      this.items := items;
      this.full := full;
    }
  }
}
