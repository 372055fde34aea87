/** The checks that keep every secret of the settings to one purpose. */
module Secrets {
  import opened Options

  datatype Key = Key(id: string, secret: string)

  datatype Keyring = Keyring(active: Key, retiring: seq<Key>)

  datatype Email = Email(verification: string, change: Option<string>, mfa: Option<string>, login: Option<string>)

  datatype Settings = Settings(token: Keyring, stepUp: Keyring, email: Email, totp: Option<string>)

  /** The checks on one value alone, such as the length of a secret. */
  datatype Rules = Rules(
    tokenKey: Key -> bool,
    stepUpKey: Key -> bool,
    emailForm: Email -> bool,
    totpForm: Option<string> -> bool,
    builds: Keyring -> bool)

  function Keys(ring: Keyring): (keys: seq<Key>)
    ensures |keys| == |ring.retiring| + 1
  {
    [ring.active] + ring.retiring
  }

  function SecretsOf(keys: seq<Key>): set<string> {
    set key | key in keys :: key.secret
  }

  function IdsOf(keys: seq<Key>): set<string> {
    set key | key in keys :: key.id
  }

  predicate DistinctIds(keys: seq<Key>) {
    forall i, j :: 0 <= i < j < |keys| ==> keys[i].id != keys[j].id
  }

  predicate DistinctSecrets(keys: seq<Key>) {
    forall i, j :: 0 <= i < j < |keys| ==> keys[i].secret != keys[j].secret
  }

  function OrNone(secret: Option<string>): set<string> {
    if secret.Some? then {secret.value} else {}
  }

  /** What each purpose uses. */
  function Domains(s: Settings): seq<set<string>> {
    [SecretsOf(Keys(s.token)), SecretsOf(Keys(s.stepUp)), {s.email.verification},
     OrNone(s.email.change), OrNone(s.email.mfa), OrNone(s.email.login), OrNone(s.totp)]
  }

  /** No two purposes share a secret; key ids are unique in each ring, and so are the
      secrets of the step-up ring. */
  predicate Separated(s: Settings) {
    && DistinctIds(Keys(s.token)) && DistinctIds(Keys(s.stepUp)) && DistinctSecrets(Keys(s.stepUp))
    && forall i, j :: 0 <= i < j < |Domains(s)| ==> Domains(s)[i] !! Domains(s)[j]
  }

  predicate Formed(r: Rules, s: Settings) {
    && |Keys(s.token)| <= 8 && |s.stepUp.retiring| <= 8
    && (forall key :: key in Keys(s.token) ==> r.tokenKey(key))
    && (forall key :: key in Keys(s.stepUp) ==> r.stepUpKey(key))
    && r.builds(s.stepUp) && r.emailForm(s.email) && r.totpForm(s.totp)
  }

  // ----- the validators -----------------------------------------------------------

  method ValidateToken(r: Rules, ring: Keyring) returns (ok: bool)
    ensures ok <==> |Keys(ring)| <= 8 && (forall key :: key in Keys(ring) ==> r.tokenKey(key)) && DistinctIds(Keys(ring))
  {
    var keys := Keys(ring);
    if |ring.retiring| + 1 > 8 { return false; }
    assert ring.active == keys[0] && keys[..1] == [ring.active];
    if !r.tokenKey(ring.active) { return false; }
    var ids := {ring.active.id};
    var i := 0;
    while i < |ring.retiring|
      invariant 0 <= i <= |ring.retiring| && ids == IdsOf(keys[..i + 1])
      invariant (forall key :: key in keys[..i + 1] ==> r.tokenKey(key)) && DistinctIds(keys[..i + 1])
    {
      var key := ring.retiring[i];
      assert key == keys[i + 1] && key in keys;
      if !r.tokenKey(key) { return false; }
      if key.id in ids {
        RepeatedId(keys, i + 1);
        return false;
      }
      FreshNext(keys, i + 1);
      ids := ids + {key.id};
      i := i + 1;
    }
    assert keys[..i + 1] == keys;
    return true;
  }

  lemma RepeatedId(keys: seq<Key>, n: nat)
    requires n < |keys| && keys[n].id in IdsOf(keys[..n])
    ensures !DistinctIds(keys)
  {
    var key :| key in keys[..n] && key.id == keys[n].id;
    var k :| 0 <= k < n && keys[..n][k] == key;
    assert keys[k].id == keys[n].id;
  }

  lemma RepeatedSecret(keys: seq<Key>, n: nat)
    requires n < |keys| && keys[n].secret in SecretsOf(keys[..n])
    ensures !DistinctSecrets(keys)
  {
    var key :| key in keys[..n] && key.secret == keys[n].secret;
    var k :| 0 <= k < n && keys[..n][k] == key;
    assert keys[k].secret == keys[n].secret;
  }

  lemma FreshKey(keys: seq<Key>, key: Key)
    ensures IdsOf(keys + [key]) == IdsOf(keys) + {key.id}
    ensures SecretsOf(keys + [key]) == SecretsOf(keys) + {key.secret}
    ensures DistinctIds(keys) && key.id !in IdsOf(keys) ==> DistinctIds(keys + [key])
    ensures DistinctSecrets(keys) && key.secret !in SecretsOf(keys) ==> DistinctSecrets(keys + [key])
  {
    OneMoreId(keys, key);
    OneMoreSecret(keys, key);
    if key.id !in IdsOf(keys) { StillDistinctIds(keys, key); }
    if key.secret !in SecretsOf(keys) { StillDistinctSecrets(keys, key); }
  }

  lemma FreshNext(keys: seq<Key>, n: nat)
    requires n < |keys| && DistinctIds(keys[..n]) && keys[n].id !in IdsOf(keys[..n])
    ensures keys[..n + 1] == keys[..n] + [keys[n]]
    ensures IdsOf(keys[..n + 1]) == IdsOf(keys[..n]) + {keys[n].id} && DistinctIds(keys[..n + 1])
  {
    assert keys[..n + 1] == keys[..n] + [keys[n]];
    FreshKey(keys[..n], keys[n]);
  }

  lemma StillDistinctIds(keys: seq<Key>, key: Key)
    requires key.id !in IdsOf(keys)
    ensures DistinctIds(keys) ==> DistinctIds(keys + [key])
  {
    forall i | 0 <= i < |keys| ensures keys[i].id != key.id { assert keys[i] in keys; }
  }

  lemma StillDistinctSecrets(keys: seq<Key>, key: Key)
    requires key.secret !in SecretsOf(keys)
    ensures DistinctSecrets(keys) ==> DistinctSecrets(keys + [key])
  {
    forall i | 0 <= i < |keys| ensures keys[i].secret != key.secret { assert keys[i] in keys; }
  }

  lemma OneMoreId(keys: seq<Key>, key: Key)
    ensures IdsOf(keys + [key]) == IdsOf(keys) + {key.id}
  {
    forall k | k in keys + [key] ensures k in keys || k == key { }
    assert forall k :: k in keys ==> k in keys + [key];
    assert key in keys + [key];
  }

  lemma OneMoreSecret(keys: seq<Key>, key: Key)
    ensures SecretsOf(keys + [key]) == SecretsOf(keys) + {key.secret}
  {
    forall k | k in keys + [key] ensures k in keys || k == key { }
    assert forall k :: k in keys ==> k in keys + [key];
    assert key in keys + [key];
  }

  method StepUpKeys(r: Rules, ring: Keyring) returns (ok: bool, secrets: set<string>)
    ensures ok <==> (forall key :: key in Keys(ring) ==> r.stepUpKey(key)) && DistinctIds(Keys(ring)) && DistinctSecrets(Keys(ring))
    ensures ok ==> secrets == SecretsOf(Keys(ring))
  {
    var keys := Keys(ring);
    assert ring.active == keys[0];
    if !r.stepUpKey(ring.active) { return false, {}; }
    var ids := {ring.active.id};
    secrets := {ring.active.secret};
    var i := 0;
    while i < |ring.retiring|
      invariant 0 <= i <= |ring.retiring| && ids == IdsOf(keys[..i + 1]) && secrets == SecretsOf(keys[..i + 1])
      invariant forall k :: 0 <= k < i + 1 ==> r.stepUpKey(keys[k])
      invariant DistinctIds(keys[..i + 1]) && DistinctSecrets(keys[..i + 1])
    {
      var key := ring.retiring[i];
      assert key == keys[i + 1] && keys[..i + 2] == keys[..i + 1] + [key];
      if !r.stepUpKey(key) { return false, {}; }
      if key.id in ids {
        RepeatedId(keys, i + 1);
        return false, {};
      }
      if key.secret in secrets {
        RepeatedSecret(keys, i + 1);
        return false, {};
      }
      FreshKey(keys[..i + 1], key);
      ids, secrets := ids + {key.id}, secrets + {key.secret};
      i := i + 1;
    }
    assert keys[..i + 1] == keys;
    ok := true;
  }

  /** Whether one of the keys has a secret among these. */
  method AnyIn(keys: seq<Key>, secrets: set<string>) returns (hit: bool)
    ensures hit <==> !(SecretsOf(keys) !! secrets)
  {
    for i := 0 to |keys|
      invariant forall k :: 0 <= k < i ==> keys[k].secret !in secrets
    {
      if keys[i].secret in secrets {
        assert keys[i] in keys;
        assert keys[i].secret in SecretsOf(keys);
        return true;
      }
    }
    return false;
  }

  method ValidateStepUp(r: Rules, ring: Keyring, token: Keyring) returns (ok: bool)
    ensures ok <==>
      && |ring.retiring| <= 8 && (forall key :: key in Keys(ring) ==> r.stepUpKey(key))
      && DistinctIds(Keys(ring)) && DistinctSecrets(Keys(ring))
      && SecretsOf(Keys(token)) !! SecretsOf(Keys(ring)) && r.builds(ring)
  {
    if |ring.retiring| > 8 { return false; }
    var secrets;
    ok, secrets := StepUpKeys(r, ring);
    if !ok { return false; }
    var shared := AnyIn(Keys(token), secrets);
    return !shared && r.builds(ring);
  }

  /** A secret that is neither ring's. */
  method ValidateVerificationSecret(secret: string, token: Keyring, stepUp: Keyring) returns (ok: bool)
    ensures ok <==> secret !in SecretsOf(Keys(token)) && secret !in SecretsOf(Keys(stepUp))
  {
    var inToken := AnyIn(Keys(token), {secret});
    var inStepUp := AnyIn(Keys(stepUp), {secret});
    return !inToken && !inStepUp;
  }

  predicate Differs(a: Option<string>, b: Option<string>) {
    !(a.Some? && a == b)
  }

  /** The e-mail secrets differ from each other and from both rings. */
  predicate EmailSeparate(e: Email, token: Keyring, stepUp: Keyring) {
    var both := SecretsOf(Keys(token)) + SecretsOf(Keys(stepUp));
    && e.verification !in both
    && OrNone(e.change) !! both && OrNone(e.mfa) !! both && OrNone(e.login) !! both
    && Differs(e.change, Some(e.verification)) && Differs(e.mfa, Some(e.verification)) && Differs(e.login, Some(e.verification))
    && Differs(e.mfa, e.change) && Differs(e.login, e.change) && Differs(e.login, e.mfa)
  }

  method ValidateEmail(r: Rules, e: Email, token: Keyring, stepUp: Keyring) returns (ok: bool)
    ensures ok <==> r.emailForm(e) && EmailSeparate(e, token, stepUp)
  {
    if !r.emailForm(e) { return false; }
    var free := ValidateVerificationSecret(e.verification, token, stepUp);
    if !free { return false; }
    if e.change.Some? {
      if e.change.value == e.verification { return false; }
      free := ValidateVerificationSecret(e.change.value, token, stepUp);
      if !free { return false; }
    }
    if e.mfa.Some? {
      if e.mfa.value == e.verification { return false; }
      if e.change.Some? && e.mfa.value == e.change.value { return false; }
      free := ValidateVerificationSecret(e.mfa.value, token, stepUp);
      if !free { return false; }
    }
    if e.login.Some? {
      if e.login.value == e.verification { return false; }
      if e.change.Some? && e.login.value == e.change.value { return false; }
      if e.mfa.Some? && e.login.value == e.mfa.value { return false; }
      free := ValidateVerificationSecret(e.login.value, token, stepUp);
      if !free { return false; }
    }
    return true;
  }

  predicate TotpSeparate(s: Settings) {
    var both := SecretsOf(Keys(s.token)) + SecretsOf(Keys(s.stepUp));
    && OrNone(s.totp) !! both
    && Differs(s.totp, Some(s.email.verification)) && Differs(s.totp, s.email.change)
    && Differs(s.totp, s.email.mfa) && Differs(s.totp, s.email.login)
  }

  method ValidateTotp(s: Settings) returns (ok: bool)
    ensures ok <==> TotpSeparate(s)
  {
    if s.totp.None? { return true; }
    var key := s.totp.value;
    var free := ValidateVerificationSecret(key, s.token, s.stepUp);
    if !free { return false; }
    if key == s.email.verification { return false; }
    if s.email.change.Some? && key == s.email.change.value { return false; }
    if s.email.mfa.Some? && key == s.email.mfa.value { return false; }
    if s.email.login.Some? && key == s.email.login.value { return false; }
    return true;
  }

  /** The single comparisons, made in four places, come to one separation of all purposes. */
  lemma ChecksSeparate(s: Settings)
    ensures Separated(s) <==>
      && DistinctIds(Keys(s.token)) && DistinctIds(Keys(s.stepUp)) && DistinctSecrets(Keys(s.stepUp))
      && SecretsOf(Keys(s.token)) !! SecretsOf(Keys(s.stepUp))
      && EmailSeparate(s.email, s.token, s.stepUp) && TotpSeparate(s)
  {
    var d := Domains(s);
    var t, u := SecretsOf(Keys(s.token)), SecretsOf(Keys(s.stepUp));
    assert d[0] == t && d[1] == u && d[2] == {s.email.verification} && d[3] == OrNone(s.email.change)
        && d[4] == OrNone(s.email.mfa) && d[5] == OrNone(s.email.login) && d[6] == OrNone(s.totp);
    if EmailSeparate(s.email, s.token, s.stepUp) && TotpSeparate(s) && t !! u {
      forall i, j | 0 <= i < j < |d| ensures d[i] !! d[j] { }
    }
  }

  /** Settings pass exactly when each value is well formed and no two purposes share a secret. */
  method Validate(r: Rules, s: Settings) returns (ok: bool)
    ensures ok <==> Formed(r, s) && Separated(s)
  {
    ChecksSeparate(s);
    ok := ValidateToken(r, s.token);
    if !ok { return false; }
    ok := ValidateStepUp(r, s.stepUp, s.token);
    if !ok { return false; }
    ok := ValidateEmail(r, s.email, s.token, s.stepUp);
    if !ok { return false; }
    ok := r.totpForm(s.totp);
    if !ok { return false; }
    ok := ValidateTotp(s);
  }

  /** Inside the token ring a secret may come twice; the step-up ring rules that out. */
  lemma TokenRingMayRepeat(r: Rules, s: Settings, id: string)
    requires Formed(r, s) && Separated(s) && |Keys(s.token)| < 8
    requires id !in IdsOf(Keys(s.token)) && r.tokenKey(Key(id, s.token.active.secret))
    ensures var again := s.(token := Keyring(s.token.active, s.token.retiring + [Key(id, s.token.active.secret)]));
      Formed(r, again) && Separated(again) && !DistinctSecrets(Keys(again.token))
  {
    var key := Key(id, s.token.active.secret);
    var again := s.(token := Keyring(s.token.active, s.token.retiring + [key]));
    var keys, more := Keys(s.token), Keys(again.token);
    assert more == keys + [key];
    FreshKey(keys, key);
    assert keys[0] == s.token.active && s.token.active in keys;
    assert SecretsOf(more) == SecretsOf(keys);
    assert Domains(again) == Domains(s);
    assert more[0].secret == more[|more| - 1].secret;
  }
}
