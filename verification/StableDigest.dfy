/**
 * The digest that decides whether two observations of a session show the same state: volatile measurements are
 * dropped at every depth before hashing (jev_agent_recovery_watchdog_v01.py).
 */
module StableDigest {
  import opened Wrappers

  datatype Json =
    | Null
    | Boolean(truth: bool)
    | Number(value: real)
    | Text(text: string)
    | Array(items: seq<Json>)
    | Object(fields: map<string, Json>)

  const VOLATILE_KEYS := {
    "snapshot_id", "captured_at", "observed_at", "last_message_age_sec", "idle_seconds", "running_seconds",
    "observation_delta", "no_forward_change", "no_forward_change_sec", "token_telemetry"
  }

  predicate EndsWith(text: string, suffix: string) {
    |suffix| <= |text| && text[|text| - |suffix|..] == suffix
  }

  predicate Volatile(key: string) { key in VOLATILE_KEYS || EndsWith(key, "_age_sec") }

  /** A key is volatile if it is one of the ten names or ends in `_age_sec`. */
  lemma VolatileIff(key: string)
    ensures Volatile(key) <==>
            || key == "snapshot_id" || key == "captured_at" || key == "observed_at" || key == "last_message_age_sec"
            || key == "idle_seconds" || key == "running_seconds" || key == "observation_delta"
            || key == "no_forward_change" || key == "no_forward_change_sec" || key == "token_telemetry"
            || exists front :: key == front + "_age_sec"
  {
    if EndsWith(key, "_age_sec") { assert key == key[..|key| - 8] + "_age_sec"; }
  }

  /** What is hashed. */
  function Stable(v: Json): Json {
    match v
    case Array(items) => Array(seq(|items|, i requires 0 <= i < |items| => Stable(items[i])))
    case Object(fields) => Object(map k | k in fields && !Volatile(k) :: Stable(fields[k]))
    case _ => v
  }

  /** The same state: equal but for volatile fields, at any depth. */
  ghost predicate Agree(a: Json, b: Json) {
    match (a, b)
    case (Array(xs), Array(ys)) => |xs| == |ys| && forall i :: 0 <= i < |xs| ==> Agree(xs[i], ys[i])
    case (Object(f), Object(g)) =>
      && (forall k :: k in f && !Volatile(k) ==> k in g && Agree(f[k], g[k]))
      && forall k :: k in g && !Volatile(k) ==> k in f
    case _ => a == b
  }

  /** Two observations are hashed alike exactly when they differ in volatile fields only. */
  lemma {:induction false} StableIffAgree(a: Json, b: Json)
    ensures Stable(a) == Stable(b) <==> Agree(a, b)
    decreases a
  {
    match (a, b)
    case (Array(xs), Array(ys)) =>
      forall i | 0 <= i < |xs| && i < |ys| ensures Stable(xs[i]) == Stable(ys[i]) <==> Agree(xs[i], ys[i]) {
        StableIffAgree(xs[i], ys[i]);
      }
      if Stable(a) == Stable(b) {
        assert |Stable(a).items| == |xs| && |Stable(b).items| == |ys|;
        forall i | 0 <= i < |xs| ensures Agree(xs[i], ys[i]) {
          assert Stable(a).items[i] == Stable(xs[i]) && Stable(b).items[i] == Stable(ys[i]);
        }
      }
    case (Object(f), Object(g)) =>
      forall k | k in f && k in g ensures Stable(f[k]) == Stable(g[k]) <==> Agree(f[k], g[k]) {
        StableIffAgree(f[k], g[k]);
      }
      if Stable(a) == Stable(b) {
        forall k | k in f && !Volatile(k) ensures k in g && Agree(f[k], g[k]) {
          assert k in Stable(a).fields && Stable(a).fields[k] == Stable(f[k]);
          assert k in Stable(b).fields;
        }
        forall k | k in g && !Volatile(k) ensures k in f {
          assert k in Stable(b).fields;
          assert k in Stable(a).fields;
        }
      }
    case _ =>
  }

  /** Nothing volatile is left. */
  lemma {:induction false} StableTwice(v: Json)
    ensures Stable(Stable(v)) == Stable(v)
  {
    match v
    case Array(items) =>
      forall i | 0 <= i < |items| ensures Stable(Stable(items[i])) == Stable(items[i]) { StableTwice(items[i]); }
    case Object(fields) =>
      forall k | k in fields ensures Stable(Stable(fields[k])) == Stable(fields[k]) { StableTwice(fields[k]); }
    case _ =>
  }

  datatype Place = Key(key: string) | Index(index: nat)

  /**
   * The value with whatever stands at `path` replaced, or removed when `x` is `None`; a path that leads nowhere
   * changes nothing.
   */
  function Edited(v: Json, path: seq<Place>, x: Option<Json>): Json
    decreases |path|
  {
    if path == [] then if x.Some? then x.value else v
    else
      match (v, path[0])
      case (Array(items), Index(i)) => if i < |items| then Array(items[i := Edited(items[i], path[1..], x)]) else v
      case (Object(fields), Key(k)) =>
        if |path| == 1 then Object(if x.Some? then fields[k := x.value] else fields - {k})
        else if k in fields then Object(fields[k := Edited(fields[k], path[1..], x)])
        else v
      case _ => v
  }

  /** Writing or removing anything at or below a volatile key, at any depth, leaves the digest material as it was. */
  lemma {:induction false} VolatileEditsDoNotShow(v: Json, path: seq<Place>, x: Option<Json>)
    requires exists i :: 0 <= i < |path| && path[i].Key? && Volatile(path[i].key)
    ensures Stable(Edited(v, path, x)) == Stable(v)
    decreases |path|
  {
    match (v, path[0])
    case (Array(items), Index(i)) =>
      if i < |items| {
        var j :| 0 <= j < |path| && path[j].Key? && Volatile(path[j].key);
        assert path[1..][j - 1] == path[j];
        VolatileEditsDoNotShow(items[i], path[1..], x);
        assert Stable(Edited(v, path, x)).items == Stable(v).items;
      }
    case (Object(fields), Key(k)) =>
      if !Volatile(k) && k in fields {
        var j :| 0 <= j < |path| && path[j].Key? && Volatile(path[j].key);
        assert path[1..][j - 1] == path[j];
        VolatileEditsDoNotShow(fields[k], path[1..], x);
      }
      assert Stable(Edited(v, path, x)).fields == Stable(v).fields;
    case _ =>
  }
}
