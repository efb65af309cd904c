/**
 * Parsed JSON documents, as `response.json()` hands them to the chat app,
 * and Python's subscript operator on them (`data["choices"][0]`), including
 * the three ways a subscript raises.
 */
module Json {
  import opened Wrappers

  datatype Json =
    | JNull
    | JBool(b: bool)
    | JNumber(literal: string)
    | JString(s: string)
    | JArray(items: seq<Json>)
    | JObject(members: map<string, Json>)

  /** The Python type a JSON value decodes to (None, bool, int, float, str, list, dict). */
  datatype Kind = NullKind | BoolKind | IntKind | FloatKind | StringKind | ArrayKind | ObjectKind

  /** Python's `json` reads a number with a fraction or an exponent, and NaN and the infinities, as a float. */
  predicate IsFloatLiteral(literal: string) {
    || '.' in literal || 'e' in literal || 'E' in literal
    || literal == "NaN" || literal == "Infinity" || literal == "-Infinity"
  }

  function KindOf(j: Json): Kind {
    match j
    case JNull => NullKind
    case JBool(_) => BoolKind
    case JNumber(literal) => if IsFloatLiteral(literal) then FloatKind else IntKind
    case JString(_) => StringKind
    case JArray(_) => ArrayKind
    case JObject(_) => ObjectKind
  }

  /** One subscript: `[name]` or `[i]`. */
  datatype Step = Key(name: string) | Index(i: nat)

  /** Why a subscript raises. */
  datatype Fault =
    | MissingKey(step: Step)               // KeyError: a dict without that key
    | OutOfRange(kind: Kind)               // IndexError: a list or str too short
    | NotIndexable(kind: Kind, step: Step) // TypeError: wrong kind of value or of subscript

  /**
   * `j[step]` in Python. A dict from JSON has only string keys, so `d[0]` is
   * a KeyError; indexing a str yields a one-character str; a list indexed by
   * a string, a str indexed by a string and None, bools and numbers indexed by
   * anything raise TypeError.
   */
  function Subscript(j: Json, step: Step): (r: Result<Json, Fault>)
    ensures r.Ok? <==>
      || (j.JObject? && step.Key? && step.name in j.members)
      || (j.JArray? && step.Index? && step.i < |j.items|)
      || (j.JString? && step.Index? && step.i < |j.s|)
    ensures j.JObject? && step.Key? && step.name in j.members ==> r == Ok(j.members[step.name])
    ensures j.JArray? && step.Index? && step.i < |j.items| ==> r == Ok(j.items[step.i])
    ensures j.JString? && step.Index? && step.i < |j.s| ==> r == Ok(JString([j.s[step.i]]))
    ensures r.Err? && j.JObject? ==> r.error == MissingKey(step)
    ensures r.Err? && (j.JArray? || j.JString?) && step.Index? ==> r.error == OutOfRange(KindOf(j))
    ensures r.Err? && !j.JObject? && !((j.JArray? || j.JString?) && step.Index?) ==>
      r.error == NotIndexable(KindOf(j), step)
  {
    match (j, step)
    case (JObject(m), Key(k)) => if k in m then Ok(m[k]) else Err(MissingKey(step))
    case (JObject(_), Index(_)) => Err(MissingKey(step))
    case (JArray(xs), Index(i)) => if i < |xs| then Ok(xs[i]) else Err(OutOfRange(ArrayKind))
    case (JString(t), Index(i)) => if i < |t| then Ok(JString([t[i]])) else Err(OutOfRange(StringKind))
    case _ => Err(NotIndexable(KindOf(j), step))
  }

  /** A chain of subscripts applied left to right; the first one that raises ends the walk. */
  function Walk(j: Json, path: seq<Step>): (r: Result<Json, Fault>)
    ensures path == [] ==> r == Ok(j)
    ensures path != [] ==>
      r == match Walk(j, path[..|path| - 1])
           case Err(f) => Err(f)
           case Ok(v) => Subscript(v, path[|path| - 1])
    decreases |path|, 1
  {
    if path == [] then Ok(j)
    else
      var last := |path| - 1;
      assert |path| > 1 ==> path[1..][..|path[1..]| - 1] == path[..last][1..];
      assert |path| > 1 ==> path[..last][0] == path[0];
      assert |path| > 1 ==> path[1..][|path[1..]| - 1] == path[last];
      match Subscript(j, path[0])
      case Err(f) => Err(f)
      case Ok(v) => Walk(v, path[1..])
  }

  /** Continue a walk that may already have failed. */
  function Then(r: Result<Json, Fault>, path: seq<Step>): Result<Json, Fault> {
    match r
    case Err(f) => Err(f)
    case Ok(v) => Walk(v, path)
  }

  /** Walking `p + q` is walking `p` and then `q` from where `p` ended. */
  lemma {:induction false} WalkAppend(j: Json, p: seq<Step>, q: seq<Step>)
    ensures Walk(j, p + q) == Then(Walk(j, p), q)
    decreases |p|
  {
    if p == [] {
      assert p + q == q;
    } else {
      assert (p + q)[0] == p[0];
      assert (p + q)[1..] == p[1..] + q;
      match Subscript(j, p[0])
      case Err(_) =>
      case Ok(v) => WalkAppend(v, p[1..], q);
    }
  }

  /**
   * The smallest document in which walking `path` reaches `v`: a one-member
   * dict for a key, and for an index `i` a list whose entry `i` leads on
   * (the entries before it are null).
   */
  function Plant(path: seq<Step>, v: Json): Json
    decreases |path|
  {
    if path == [] then v
    else match path[0]
      case Key(k) => JObject(map[k := Plant(path[1..], v)])
      case Index(i) => JArray(seq(i, _ => JNull) + [Plant(path[1..], v)])
  }

  /** Walking a path through the document planted along it finds the planted value. */
  lemma {:induction false} WalkPlant(path: seq<Step>, v: Json)
    ensures Walk(Plant(path, v), path) == Ok(v)
    decreases |path|
  {
    if path != [] {
      var rest := Plant(path[1..], v);
      WalkPlant(path[1..], v);
      match path[0]
      case Key(k) =>
        assert Subscript(Plant(path, v), path[0]) == Ok(rest);
      case Index(i) =>
        assert (seq(i, _ => JNull) + [rest])[i] == rest;
        assert Subscript(Plant(path, v), path[0]) == Ok(rest);
    }
  }

  /** Planting through index 0 makes a one-entry list. */
  lemma PlantIndexZero(rest: seq<Step>, v: Json)
    ensures Plant([Index(0)] + rest, v) == JArray([Plant(rest, v)])
  {
  }
}
