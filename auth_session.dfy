/**
 * The cookie-backed session manager `authSession`: reading, creating and
 * blanking the per-request session. The cookie codec (`getSession`,
 * `commitSession`) and `JSON.stringify` are parameters: `getSession` decodes
 * a `Cookie` header (an invalid one gives an empty session, and so does
 * none at all, which `CreateAuthSession` requires of it),
 * `commitSession` encodes a session as a `Set-Cookie` value and may throw.
 */
module AuthSession {
  import opened Wrappers
  import opened Http
  import opened AuthTypes

  /** The server-side session object: string keys to string values. */
  class Session {
    var values: map<string, string>

    constructor (initial: map<string, string>)
      ensures values == initial
    {
      values := initial;
    }

    /** `session.set(key, value)` */
    method Set(key: string, value: string)
      modifies this
      ensures values == old(values)[key := value]
    {
      values := values[key := value];
    }
  }

  /**
   * A field of the `data` object handed to `createAuthSession`: `Text` when
   * `typeof` says `'string'`, `Structured` otherwise. A `Structured(JString(s))`
   * stands for a `String` wrapper object, whose `typeof` is `'object'`.
   */
  datatype FieldValue = Text(s: string) | Structured(v: JsonValue)
  datatype Field = Field(key: string, value: FieldValue)

  /** What is stored for a field: a string verbatim, anything else serialised. */
  function Stored(value: FieldValue, stringify: JsonValue -> string): string {
    match value
    case Text(s) => s
    case Structured(v) => stringify(v)
  }

  /** The session after setting each field of `fields` in turn on an empty one. */
  function Written(fields: seq<Field>, stringify: JsonValue -> string): map<string, string>
    decreases |fields|
  {
    if fields == [] then map[]
    else
      var last := fields[|fields| - 1];
      Written(fields[..|fields| - 1], stringify)[last.key := Stored(last.value, stringify)]
  }

  function KeysOf(fields: seq<Field>): set<string> {
    set i | 0 <= i < |fields| :: fields[i].key
  }

  /** Object keys are unique. */
  predicate DistinctKeys(fields: seq<Field>) {
    forall i, j :: 0 <= i < j < |fields| ==> fields[i].key != fields[j].key
  }

  /** The created session holds exactly the keys of `data`, nothing else. */
  lemma {:induction false} WrittenKeys(fields: seq<Field>, stringify: JsonValue -> string)
    ensures Written(fields, stringify).Keys == KeysOf(fields)
    decreases |fields|
  {
    if fields != [] {
      var init := fields[..|fields| - 1];
      WrittenKeys(init, stringify);
      assert KeysOf(fields) == KeysOf(init) + {fields[|fields| - 1].key} by {
        forall k | k in KeysOf(fields) ensures k in KeysOf(init) + {fields[|fields| - 1].key} {
          var i :| 0 <= i < |fields| && fields[i].key == k;
          if i < |fields| - 1 { assert init[i] == fields[i]; }
        }
        forall k | k in KeysOf(init) ensures k in KeysOf(fields) {
          var i :| 0 <= i < |init| && init[i].key == k;
          assert fields[i] == init[i];
        }
      }
    }
  }

  /**
   * Each field of `data` is stored under its key: a string unchanged, any
   * other value as its serialisation.
   */
  lemma {:induction false} WrittenValue(fields: seq<Field>, stringify: JsonValue -> string, i: nat)
    requires DistinctKeys(fields) && i < |fields|
    ensures fields[i].key in Written(fields, stringify)
    ensures fields[i].value.Text? ==> Written(fields, stringify)[fields[i].key] == fields[i].value.s
    ensures fields[i].value.Structured? ==>
              Written(fields, stringify)[fields[i].key] == stringify(fields[i].value.v)
    decreases |fields|
  {
    var init := fields[..|fields| - 1];
    if i < |fields| - 1 {
      assert DistinctKeys(init) by {
        forall a, b | 0 <= a < b < |init| ensures init[a].key != init[b].key {
          assert init[a] == fields[a] && init[b] == fields[b];
        }
      }
      WrittenValue(init, stringify, i);
      assert init[i] == fields[i];
    }
  }

  /** The session after setting each of `keys` in turn to `""`. */
  function Blanked(m: map<string, string>, keys: seq<string>): map<string, string>
    decreases |keys|
  {
    if keys == [] then m
    else Blanked(m, keys[..|keys| - 1])[keys[|keys| - 1] := ""]
  }

  /** Blanking is overriding the named keys with `""`, in any order. */
  lemma {:induction false} BlankedIsOverride(m: map<string, string>, keys: seq<string>)
    ensures Blanked(m, keys) == m + map k | k in keys :: ""
    decreases |keys|
  {
    if keys != [] {
      var init := keys[..|keys| - 1];
      BlankedIsOverride(m, init);
      var last := keys[|keys| - 1];
      assert forall k :: k in keys <==> k in init || k == last by {
        forall k | k in keys ensures k in init || k == last {
          var i :| 0 <= i < |keys| && keys[i] == k;
          if i < |keys| - 1 { assert init[i] == k; }
        }
        forall k | k in init ensures k in keys {
          var i :| 0 <= i < |init| && init[i] == k;
          assert keys[i] == k;
        }
      }
    }
  }

  /**
   * Every named key ends up `""`; every other key keeps its presence and its
   * value.
   */
  lemma BlankedFrame(m: map<string, string>, keys: seq<string>, k: string)
    ensures k in keys ==> k in Blanked(m, keys) && Blanked(m, keys)[k] == ""
    ensures k !in keys ==> (k in Blanked(m, keys) <==> k in m)
    ensures k !in keys && k in m ==> Blanked(m, keys)[k] == m[k]
  {
    BlankedIsOverride(m, keys);
  }

  /** Blanking the same keys twice leaves the session as blanking them once. */
  lemma BlankedIdempotent(m: map<string, string>, keys: seq<string>)
    ensures Blanked(Blanked(m, keys), keys) == Blanked(m, keys)
  {
    BlankedIsOverride(m, keys);
    BlankedIsOverride(Blanked(m, keys), keys);
  }

  /** A single key `k` blanks as the list `[k]` does. */
  lemma SingleKeyIsList(m: map<string, string>, k: string)
    ensures Blanked(m, SingleKey(k).AsList()) == Blanked(m, KeyList([k]).AsList()) == m[k := ""]
  {
  }

  /**
   * Destroying a created session blanks, not removes: blanking at least the
   * created keys leaves every created key present with value `""`, so the
   * session is empty only when nothing was ever written.
   */
  lemma DestroyAfterCreate(fields: seq<Field>, stringify: JsonValue -> string, keys: seq<string>)
    requires forall i :: 0 <= i < |fields| ==> fields[i].key in keys
    ensures Blanked(Written(fields, stringify), keys).Keys == KeysOf(fields) + (set k | k in keys)
    ensures forall k :: k in Blanked(Written(fields, stringify), keys) ==> Blanked(Written(fields, stringify), keys)[k] == ""
    ensures Blanked(Written(fields, stringify), keys) == map[] <==> keys == []
  {
    WrittenKeys(fields, stringify);
    BlankedIsOverride(Written(fields, stringify), keys);
    if keys != [] {
      assert keys[0] in Blanked(Written(fields, stringify), keys);
    }
  }

  /** `getAuthSession(request)`: the session the request's cookie decodes to. */
  method GetAuthSession(request: Request, getSession: Option<string> -> map<string, string>)
    returns (session: Session)
    ensures fresh(session) && session.values == getSession(request.cookie)
  {
    session := new Session(getSession(request.cookie));
  }

  /**
   * `createAuthSession(data, redirectTo)`: a new session holding exactly the
   * fields of `data`, committed; a redirect when `redirectTo` is truthy, else
   * 201 `{status: 'success'}`; a commit that throws gives a 500
   * `session/create` envelope without `Set-Cookie`.
   */
  method CreateAuthSession(
    data: seq<Field>, redirectTo: Option<string>, getSession: Option<string> -> map<string, string>,
    stringify: JsonValue -> string, commit: map<string, string> -> Result<string>)
    returns (r: Response)
    requires getSession(None) == map[]
    ensures commit(Written(data, stringify)).Failure? ==>
              r == Json(500, ErrorEnvelope(None, "session/create",
                                           "Could not create user session: " + commit(Written(data, stringify)).error), None)
    ensures commit(Written(data, stringify)).Success? && Truthy(redirectTo) ==>
              r == Redirect(redirectTo.value, Some(commit(Written(data, stringify)).value))
    ensures commit(Written(data, stringify)).Success? && !Truthy(redirectTo) ==>
              r == Json(201, SuccessEnvelope, Some(commit(Written(data, stringify)).value))
  {
    var session := new Session(getSession(None));
    for i := 0 to |data|
      invariant session.values == Written(data[..i], stringify)
    {
      var field := data[i];
      match field.value {
        case Text(s) => session.Set(field.key, s);
        case Structured(v) => session.Set(field.key, stringify(v));
      }
      assert data[..i + 1][..i] == data[..i];
    }
    assert data[..|data|] == data;
    var cookie := commit(session.values);
    match cookie
    case Failure(e) =>
      r := Json(500, ErrorEnvelope(None, "session/create", "Could not create user session: " + e), None);
    case Success(c) =>
      if Truthy(redirectTo) {
        r := Redirect(redirectTo.value, Some(c));
      } else {
        r := Json(201, SuccessEnvelope, Some(c));
      }
  }

  /**
   * `destroyAuthSession(request, keys, redirectTo)`: the request's session
   * with the named keys set to `""`, recommitted; a redirect when
   * `redirectTo` is truthy, else 204 `{status: 'success'}`. There is no
   * catch: a commit that throws makes the whole call throw.
   */
  method DestroyAuthSession(
    request: Request, keys: SessionKeys, redirectTo: Option<string>,
    getSession: Option<string> -> map<string, string>, commit: map<string, string> -> Result<string>)
    returns (r: Result<Response>)
    ensures commit(Blanked(getSession(request.cookie), keys.AsList())).Failure? ==>
              r == Failure(commit(Blanked(getSession(request.cookie), keys.AsList())).error)
    ensures commit(Blanked(getSession(request.cookie), keys.AsList())).Success? && Truthy(redirectTo) ==>
              r == Success(Redirect(redirectTo.value, Some(commit(Blanked(getSession(request.cookie), keys.AsList())).value)))
    ensures commit(Blanked(getSession(request.cookie), keys.AsList())).Success? && !Truthy(redirectTo) ==>
              r == Success(Json(204, SuccessEnvelope, Some(commit(Blanked(getSession(request.cookie), keys.AsList())).value)))
  {
    var session := GetAuthSession(request, getSession);
    ghost var before := session.values;
    match keys {
      case SingleKey(k) =>
        session.Set(k, "");
        SingleKeyIsList(before, k);
      case KeyList(ks) =>
        for i := 0 to |ks|
          invariant session.values == Blanked(before, ks[..i])
        {
          session.Set(ks[i], "");
          assert ks[..i + 1][..i] == ks[..i];
        }
        assert ks[..|ks|] == ks;
    }
    var cookie := commit(session.values);
    match cookie
    case Failure(e) =>
      r := Failure(e);
    case Success(c) =>
      if Truthy(redirectTo) {
        r := Success(Redirect(redirectTo.value, Some(c)));
      } else {
        r := Success(Json(204, SuccessEnvelope, Some(c)));
      }
  }
}
