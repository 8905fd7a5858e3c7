/**
  Secret resolution (agent/secretsmanager).  An environment value that decodes to
  `_<provider>:<secret id>:<secret key>` is replaced by the secret it names; any other value is
  kept.  Providers are created on first use and the vault and AWS ones keep what they fetched.
 */
module Secrets {
  import opened Selection

  datatype Kind = Aws | EnvJson | VaultKv1 | VaultKv2

  /** The world outside, unchanging during one call: base64, which providers initialise, and the
      key-value pairs of each secret (None when the request fails). */
  datatype Backend = Backend(
    decode: string -> Option<string>,
    encode: string -> string,
    initialises: Kind -> bool,
    fetch: (Kind, string) -> Option<map<string, string>>)

  // ---- decodeVal -------------------------------------------------------------------------

  /** strings.Split(s, ":") */
  function Split(s: string): (parts: seq<string>)
    ensures |parts| > 0
  {
    if s == [] then [[]]
    else
      var rest := Split(s[1..]);
      if s[0] == ':' then [[]] + rest else [[s[0]] + rest[0]] + rest[1..]
  }

  lemma {:induction false} SplitNone(s: string)
    requires ':' !in s
    ensures Split(s) == [s]
  {
    if s != [] {
      SplitNone(s[1..]);
      assert [s[0]] + s[1..] == s;
    }
  }

  lemma {:induction false} SplitAt(a: string, rest: string)
    requires ':' !in a
    ensures Split(a + ":" + rest) == [a] + Split(rest)
  {
    var s := a + ":" + rest;
    if a == [] {
      assert s[1..] == rest;
    } else {
      SplitAt(a[1..], rest);
      assert s[1..] == a[1..] + ":" + rest && [a[0]] + a[1..] == a;
    }
  }

  lemma {:induction false} SplitJoins(s: string)
    ensures var p := Split(s);
            && ':' !in p[0]
            && (if |p| == 1 then s == p[0]
                else exists rest :: s == p[0] + ":" + rest && Split(rest) == p[1..])
  {
    if s != [] {
      SplitJoins(s[1..]);
      var p, q := Split(s), Split(s[1..]);
      if s[0] == ':' {
        assert s == p[0] + ":" + s[1..] && Split(s[1..]) == p[1..];
      } else if |q| > 1 {
        var rest :| s[1..] == q[0] + ":" + rest && Split(rest) == q[1..];
        assert s == [s[0]] + s[1..];
        assert s == p[0] + ":" + rest && Split(rest) == p[1..];
      }
    }
  }

  /** Exactly the values of the form a:b:c have three parts. */
  lemma SplitThree(s: string, a: string, b: string, c: string)
    ensures Split(s) == [a, b, c] <==> s == a + ":" + (b + ":" + c) && ':' !in a && ':' !in b && ':' !in c
  {
    if Split(s) == [a, b, c] {
      SplitJoins(s);
      var rest :| s == a + ":" + rest && Split(rest) == Split(s)[1..];
      assert Split(rest) == [b, c];
      SplitJoins(rest);
      var last :| rest == b + ":" + last && Split(last) == Split(rest)[1..];
      assert Split(last) == [c];
      SplitJoins(last);
    }
    if s == a + ":" + (b + ":" + c) && ':' !in a && ':' !in b && ':' !in c {
      SplitAt(a, b + ":" + c);
      SplitAt(b, c);
      SplitNone(c);
    }
  }

  function KindOf(s: string): (k: Option<Kind>) {
    if s == "_aws" then Some(Aws)
    else if s == "_envjson" then Some(EnvJson)
    else if s == "_vaultkv1" then Some(VaultKv1)
    else if s == "_vaultkv2" then Some(VaultKv2)
    else None
  }

  // ---- One variable ----------------------------------------------------------------------

  /** Why a variable does not resolve. */
  datatype Reason = NotBase64 | RequestFailed | KeyNotFound

  datatype Resolution = Value(value: string) | Failed(reason: Reason) | NoProvider(kind: Kind)

  datatype Found = Secret(text: string) | Missing(reason: Reason)

  /** The key of a secret, from the backend alone. */
  function Lookup(w: Backend, k: Kind, id: string, key: string): (r: Found) {
    match w.fetch(k, id)
    case Some(m) => if key in m then Secret(m[key]) else Missing(KeyNotFound)
    case None => Missing(RequestFailed)
  }

  /** What one variable resolves to, whatever else is resolved with it. */
  function Resolve(w: Backend, v: string): (r: Resolution) {
    match w.decode(v)
    case None => Failed(NotBase64)
    case Some(s) =>
      var parts := Split(s);
      if |parts| != 3 then Value(v)
      else
        match KindOf(parts[0])
        case None => Value(v)
        case Some(k) =>
          if k != EnvJson && !w.initialises(k) then NoProvider(k)
          else
            match Lookup(w, k, parts[1], parts[2])
            case Secret(secret) => Value(w.encode(secret))
            case Missing(reason) => Failed(reason)
  }

  // ---- The cached resolver ---------------------------------------------------------------

  /** A provider; the one for environment JSON never fills its cache. */
  class Provider {
    const kind: Kind
    var cache: map<string, map<string, string>>

    ghost predicate Valid(w: Backend)
      reads this
    {
      forall id :: id in cache ==> w.fetch(kind, id) == Some(cache[id])
    }

    constructor (kind: Kind)
      ensures this.kind == kind && cache == map[]
    {
      this.kind := kind;
      cache := map[];
    }

    /** The cache is filled only by a request that found its key, and answers for the whole
        secret from then on; it never changes an answer. */
    method GetKey(w: Backend, id: string, key: string) returns (r: Found)
      requires Valid(w)
      modifies this
      ensures Valid(w) && r == Lookup(w, kind, id, key)
      ensures old(cache.Keys) <= cache.Keys
    {
      if id in cache {
        return if key in cache[id] then Secret(cache[id][key]) else Missing(KeyNotFound);
      }
      var data := w.fetch(kind, id);
      if data.None? {
        return Missing(RequestFailed);
      }
      if key in data.value {
        if kind != EnvJson {
          cache := cache[id := data.value];
        }
        return Secret(data.value[key]);
      }
      return Missing(KeyNotFound);
    }
  }

  /** An entry of the source's error list: the variable and what went wrong with it. */
  datatype Error = Error(key: string, reason: Reason)

  datatype Result = Ok(vars: map<string, string>) | Errors(errors: seq<Error>) | InitFailed(kind: Kind)

  /** Decode in terms of the pure resolver: success exactly when every variable resolves, then with
      the same keys and each variable's own value; a failed initialisation exactly when some
      needed provider does not initialise; otherwise one error for each unresolved variable, with
      its own reason. */
  ghost predicate Decodes(w: Backend, env: map<string, string>, r: Result) {
    match r
    case Ok(vars) => vars.Keys == env.Keys && forall k :: k in env ==> Resolve(w, env[k]) == Value(vars[k])
    case InitFailed(kind) => exists k :: k in env && Resolve(w, env[k]) == NoProvider(kind)
    case Errors(errors) =>
      && errors != [] && (forall k :: k in env ==> !Resolve(w, env[k]).NoProvider?)
      && Distinct(Keys(errors))
      && forall e :: e in errors <==> e.key in env && Resolve(w, env[e.key]) == Failed(e.reason)
  }

  function Keys(errors: seq<Error>): (ks: seq<string>)
    ensures |ks| == |errors| && forall i :: 0 <= i < |errors| ==> ks[i] == errors[i].key
  {
    seq(|errors|, i requires 0 <= i < |errors| => errors[i].key)
  }

  ghost predicate Distinct(s: seq<string>) {
    forall i, j :: 0 <= i < j < |s| ==> s[i] != s[j]
  }

  /** `order` visits every key once, as ranging over a map does. */
  ghost predicate Visits(order: seq<string>, keys: set<string>) {
    Distinct(order) && forall k :: k in order <==> k in keys
  }

  /** What has been computed after the variables in `done`. */
  ghost predicate Progress(w: Backend, env: map<string, string>, done: seq<string>, vars: map<string, string>, errors: seq<Error>) {
    && (forall k :: k in vars ==> k in done)
    && (forall k :: k in vars && k in env ==> Resolve(w, env[k]) == Value(vars[k]))
    && Distinct(Keys(errors))
    && (forall e :: e in errors ==> e.key in done && e.key in env && Resolve(w, env[e.key]) == Failed(e.reason))
    && (forall k :: k in done ==> k in vars || (k in env && Resolve(w, env[k]).Failed? && Error(k, Resolve(w, env[k]).reason) in errors))
  }

  lemma ProgressValue(w: Backend, env: map<string, string>, done: seq<string>, vars: map<string, string>, errors: seq<Error>, k: string, v: string)
    requires Progress(w, env, done, vars, errors) && k in env && k !in done && Resolve(w, env[k]) == Value(v)
    ensures Progress(w, env, done + [k], vars[k := v], errors)
  {
  }

  lemma ProgressError(w: Backend, env: map<string, string>, done: seq<string>, vars: map<string, string>, errors: seq<Error>, e: Error)
    requires Progress(w, env, done, vars, errors) && e.key in env && e.key !in done && Resolve(w, env[e.key]) == Failed(e.reason)
    ensures Progress(w, env, done + [e.key], vars, errors + [e])
  {
    hide Resolve;
    var more := errors + [e];
    assert forall i :: 0 <= i < |errors| ==> errors[i] in errors;
    assert more[|errors|] == e;
  }

  lemma ProgressDone(w: Backend, env: map<string, string>, order: seq<string>, vars: map<string, string>, errors: seq<Error>)
    requires Visits(order, env.Keys) && Progress(w, env, order, vars, errors)
    ensures Decodes(w, env, if errors != [] then Errors(errors) else Ok(vars))
  {
    hide Resolve;
    forall k | k in env ensures k in order { }
    forall k | k in order ensures k in env { }
    if errors == [] {
      assert forall k :: k in vars <==> k in env;
    }
  }

  /** Decode, for any iteration order. */
  method Decode(w: Backend, env: map<string, string>, order: seq<string>) returns (r: Result)
    requires Visits(order, env.Keys)
    ensures Decodes(w, env, r)
    ensures r.Ok? ==> forall k :: k in env && w.decode(env[k]).Some? && !Reference(w.decode(env[k]).value) ==> k in r.vars && r.vars[k] == env[k]
  {
    hide Decodes, Progress;
    var providers: map<Kind, Provider> := map[];
    var vars: map<string, string> := map[];
    var errors: seq<Error> := [];
    ProgressStart(w, env);
    for i := 0 to |order|
      invariant Progress(w, env, order[..i], vars, errors)
      invariant forall k :: k in providers ==> allocated(providers[k]) && fresh(providers[k])
      invariant forall k :: k in providers ==> providers[k].kind == k && providers[k].Valid(w) && (k == EnvJson || w.initialises(k))
    {
      var key := order[i];
      assert key in order;
      assert key !in order[..i] && order[..i + 1] == order[..i] + [key];
      var decoded := w.decode(env[key]);
      if decoded.None? {
        ProgressError(w, env, order[..i], vars, errors, Error(key, NotBase64));
        errors := errors + [Error(key, NotBase64)];
        continue;
      }
      var parts := Split(decoded.value);
      if |parts| != 3 || KindOf(parts[0]).None? {
        ProgressValue(w, env, order[..i], vars, errors, key, env[key]);
        vars := vars[key := env[key]];
        continue;
      }
      var kind := KindOf(parts[0]).value;
      if kind !in providers {
        if kind != EnvJson && !w.initialises(kind) {
          r := InitFailed(kind);
          InitFailedDecodes(w, env, key, kind);
          return;
        }
        var created := new Provider(kind);
        providers := providers[kind := created];
      }
      var provider := providers[kind];
      var val := provider.GetKey(w, parts[1], parts[2]);
      if val.Missing? {
        ProgressError(w, env, order[..i], vars, errors, Error(key, val.reason));
        errors := errors + [Error(key, val.reason)];
        continue;
      }
      ProgressValue(w, env, order[..i], vars, errors, key, w.encode(val.text));
      vars := vars[key := w.encode(val.text)];
    }
    assert order[..|order|] == order;
    ProgressDone(w, env, order, vars, errors);
    if |errors| > 0 {
      return Errors(errors);
    }
    r := Ok(vars);
    forall k | k in env && w.decode(env[k]).Some? && !Reference(w.decode(env[k]).value) ensures k in r.vars && r.vars[k] == env[k] {
      DecodedValues(w, env, r, k);
    }
  }

  lemma ProgressStart(w: Backend, env: map<string, string>)
    ensures Progress(w, env, [], map[], [])
  {
  }

  lemma InitFailedDecodes(w: Backend, env: map<string, string>, k: string, kind: Kind)
    requires k in env && Resolve(w, env[k]) == NoProvider(kind)
    ensures Decodes(w, env, InitFailed(kind))
  {
  }

  /** The kind of result is a property of the variables, not of the order: success if and only if
      every variable resolves, a failed initialisation if and only if some variable needs a
      provider that does not initialise. */
  lemma DecodeOutcome(w: Backend, env: map<string, string>, r: Result)
    requires Decodes(w, env, r)
    ensures r.Ok? <==> forall k :: k in env ==> Resolve(w, env[k]).Value?
    ensures r.InitFailed? <==> exists k :: k in env && Resolve(w, env[k]).NoProvider?
  {
    hide Resolve;
    if r.Errors? {
      assert r.errors[0] in r.errors;
      var k := r.errors[0].key;
      assert k in env && Resolve(w, env[k]).Failed?;
    }
    if r.InitFailed? {
      var k :| k in env && Resolve(w, env[k]) == NoProvider(r.kind);
      assert !Resolve(w, env[k]).Value?;
    }
  }

  /** Two iteration orders give the same variables, or the same errors but for their order, or both
      a failed initialisation. */
  lemma DecodeOrderIndependent(w: Backend, env: map<string, string>, r1: Result, r2: Result)
    requires Decodes(w, env, r1) && Decodes(w, env, r2)
    ensures r1.Ok? == r2.Ok? && r1.Errors? == r2.Errors?
    ensures r1.Ok? ==> r1 == r2
    ensures r1.Errors? ==> |r1.errors| == |r2.errors| && forall e :: e in r1.errors <==> e in r2.errors
  {
    hide Resolve;
    DecodeOutcome(w, env, r1);
    DecodeOutcome(w, env, r2);
    if r1.Ok? {
      forall k | k in r1.vars ensures k in r2.vars && r1.vars[k] == r2.vars[k] {
        assert k in env && Resolve(w, env[k]) == Value(r1.vars[k]);
      }
      assert r1.vars == r2.vars;
    }
    if r1.Errors? {
      SameSize(r1.errors, r2.errors);
    }
  }

  ghost function Members(s: seq<Error>): (r: set<Error>) {
    set e | e in s
  }

  lemma {:induction false} DistinctSize(s: seq<Error>)
    requires Distinct(Keys(s))
    ensures |Members(s)| == |s|
  {
    if s != [] {
      var init, last := s[..|s| - 1], s[|s| - 1];
      assert Keys(init) == Keys(s)[..|s| - 1];
      DistinctSize(init);
      assert s == init + [last];
      assert Members(s) == Members(init) + {last};
      forall i | 0 <= i < |init| ensures init[i] != last {
        assert Keys(s)[i] != Keys(s)[|s| - 1];
      }
    }
  }

  lemma SameSize(s: seq<Error>, t: seq<Error>)
    requires Distinct(Keys(s)) && Distinct(Keys(t)) && forall e :: e in s <==> e in t
    ensures |s| == |t|
  {
    DistinctSize(s);
    DistinctSize(t);
    assert Members(s) == Members(t);
  }

  /** A value that names no provider, or has no three parts, is kept; a named secret becomes the
      encoded value of its key. */
  lemma ResolveNamed(w: Backend, v: string, name: string, id: string, key: string)
    requires w.decode(v) == Some(name + ":" + (id + ":" + key)) && ':' !in name && ':' !in id && ':' !in key
    ensures match KindOf(name)
            case None => Resolve(w, v) == Value(v)
            case Some(k) =>
              if k != EnvJson && !w.initialises(k) then Resolve(w, v) == NoProvider(k)
              else Resolve(w, v) == (match Lookup(w, k, id, key) case Secret(s) => Value(w.encode(s)) case Missing(reason) => Failed(reason))
  {
    hide KindOf;
    SplitThree(name + ":" + (id + ":" + key), name, id, key);
  }

  // ---- One variable, case by case --------------------------------------------------------

  /** The text of a secret reference: a provider's name, a secret's id and a key, none with a colon. */
  predicate IsReference(s: string, name: string, id: string, key: string) {
    s == name + ":" + (id + ":" + key) && ':' !in name && ':' !in id && ':' !in key
  }

  predicate ProviderName(name: string) {
    name == "_aws" || name == "_envjson" || name == "_vaultkv1" || name == "_vaultkv2"
  }

  /** The text names a provider there is, a secret and a key. */
  ghost predicate Reference(s: string) {
    exists name, id, key :: IsReference(s, name, id, key) && ProviderName(name)
  }

  /** What a provider that is ready answers for a secret and a key. */
  function Answer(w: Backend, k: Kind, id: string, key: string): (r: Resolution) {
    match w.fetch(k, id)
    case None => Failed(RequestFailed)
    case Some(m) => if key in m then Value(w.encode(m[key])) else Failed(KeyNotFound)
  }

  /** A value that is not base64 does not resolve. */
  lemma ResolveUndecodable(w: Backend, v: string)
    requires w.decode(v) == None
    ensures Resolve(w, v) == Failed(NotBase64)
  {
  }

  /** A value whose text is no reference is kept as it is, still encoded. */
  lemma ResolvePlain(w: Backend, v: string)
    requires w.decode(v).Some? && !Reference(w.decode(v).value)
    ensures Resolve(w, v) == Value(v)
  {
    var s := w.decode(v).value;
    var parts := Split(s);
    if |parts| == 3 && KindOf(parts[0]).Some? {
      assert parts == [parts[0], parts[1], parts[2]];
      SplitThree(s, parts[0], parts[1], parts[2]);
      assert IsReference(s, parts[0], parts[1], parts[2]);
      assert ProviderName(parts[0]);
    }
  }

  /** A reference goes to the provider it names; all but the one for environment JSON must first
      initialise. */
  lemma ResolveReference(w: Backend, v: string, name: string, id: string, key: string)
    requires w.decode(v).Some? && IsReference(w.decode(v).value, name, id, key)
    ensures name == "_aws" ==> Resolve(w, v) == if w.initialises(Aws) then Answer(w, Aws, id, key) else NoProvider(Aws)
    ensures name == "_envjson" ==> Resolve(w, v) == Answer(w, EnvJson, id, key)
    ensures name == "_vaultkv1" ==> Resolve(w, v) == if w.initialises(VaultKv1) then Answer(w, VaultKv1, id, key) else NoProvider(VaultKv1)
    ensures name == "_vaultkv2" ==> Resolve(w, v) == if w.initialises(VaultKv2) then Answer(w, VaultKv2, id, key) else NoProvider(VaultKv2)
  {
    SplitThree(w.decode(v).value, name, id, key);
  }

  /** In any success a variable that is no reference keeps its encoded value, and one that is holds
      the encoded value of its key. */
  lemma DecodedValues(w: Backend, env: map<string, string>, r: Result, k: string)
    requires Decodes(w, env, r) && r.Ok? && k in env
    ensures k in r.vars && w.decode(env[k]).Some?
    ensures !Reference(w.decode(env[k]).value) ==> r.vars[k] == env[k]
    ensures forall name, id, key :: IsReference(w.decode(env[k]).value, name, id, key) && ProviderName(name) ==>
              exists kind, m :: w.fetch(kind, id) == Some(m) && KindNamed(kind, name) && key in m && r.vars[k] == w.encode(m[key])
  {
    hide Resolve, Split, KindOf;
    if w.decode(env[k]).None? {
      ResolveUndecodable(w, env[k]);
    } else if !Reference(w.decode(env[k]).value) {
      ResolvePlain(w, env[k]);
    }
    forall name, id, key | w.decode(env[k]).Some? && IsReference(w.decode(env[k]).value, name, id, key) && ProviderName(name)
      ensures exists kind, m :: w.fetch(kind, id) == Some(m) && KindNamed(kind, name) && key in m && r.vars[k] == w.encode(m[key])
    {
      ResolveReference(w, env[k], name, id, key);
      var kind := if name == "_aws" then Aws else if name == "_envjson" then EnvJson else if name == "_vaultkv1" then VaultKv1 else VaultKv2;
      assert KindNamed(kind, name) && Resolve(w, env[k]) == Answer(w, kind, id, key);
    }
  }

  predicate KindNamed(kind: Kind, name: string) {
    match kind
    case Aws => name == "_aws"
    case EnvJson => name == "_envjson"
    case VaultKv1 => name == "_vaultkv1"
    case VaultKv2 => name == "_vaultkv2"
  }
}
