/** Notification target configs: secrets are blanked on the way out and blank secrets are restored from the
    stored row on the way in. The two form a lens on the public fields. */
module TargetConfig {

  /** A decoded JSON value: a string, or anything else. */
  datatype Json = Text(text: string) | Other(code: nat)

  type Config = map<string, Json>

  /** Blank in an update: absent, not a string, or the empty string. */
  predicate Filled(cfg: Config, name: string) { name in cfg && cfg[name].Text? && cfg[name].text != "" }

  /** A stored secret worth keeping: present and not the empty string. */
  predicate Present(cfg: Config, name: string) { name in cfg && cfg[name] != Text("") }

  function Redacted(cfg: Config, secrets: seq<string>): Config {
    map k | k in cfg :: if k in secrets then Text("") else cfg[k]
  }

  predicate Restores(update: Config, stored: Config, secrets: seq<string>, k: string) {
    k in secrets && k in stored && !Filled(update, k)
  }

  function Merged(update: Config, stored: Config, secrets: seq<string>): Config {
    map k | k in update.Keys + stored.Keys && (k in update || Restores(update, stored, secrets, k)) ::
      if Restores(update, stored, secrets, k) then stored[k] else update[k]
  }

  method Redact(cfg: Config, secrets: seq<string>) returns (r: Config)
    ensures r == Redacted(cfg, secrets)
  {
    r := cfg;
    for i := 0 to |secrets|
      invariant r == Redacted(cfg, secrets[..i])
    {
      if secrets[i] in r { r := r[secrets[i] := Text("")]; }
      assert secrets[..i + 1] == secrets[..i] + [secrets[i]];
    }
    assert secrets[..|secrets|] == secrets;
  }

  method MergeBlankSecrets(update: Config, stored: Config, secrets: seq<string>) returns (r: Config)
    ensures r == Merged(update, stored, secrets)
  {
    r := update;
    for i := 0 to |secrets|
      invariant r.Keys <= update.Keys + stored.Keys
      invariant forall k :: k in r <==> k in update || Restores(update, stored, secrets[..i], k)
      invariant forall k | k in r :: r[k] == if Restores(update, stored, secrets[..i], k) then stored[k] else update[k]
    {
      var name := secrets[i];
      assert secrets[..i + 1] == secrets[..i] + [name];
      var filled := name in r && r[name].Text? && r[name].text != "";
      if !filled && name in stored { r := r[name := stored[name]]; }
    }
    assert secrets[..|secrets|] == secrets;
  }

  // ---- laws ----

  /** Writing back what was read changes nothing. */
  lemma WriteBackWhatWasRead(stored: Config, secrets: seq<string>)
    ensures Merged(Redacted(stored, secrets), stored, secrets) == stored
  {
    var r := Redacted(stored, secrets);
    forall k | k in stored ensures Merged(r, stored, secrets)[k] == stored[k] {
      if k in secrets { assert !Filled(r, k); }
    }
  }

  lemma RedactTwice(cfg: Config, secrets: seq<string>)
    ensures Redacted(Redacted(cfg, secrets), secrets) == Redacted(cfg, secrets)
  {}

  /** Sending the same update again, or what it led to, changes nothing more. */
  lemma MergeTwice(update: Config, stored: Config, secrets: seq<string>)
    ensures var m := Merged(update, stored, secrets);
      Merged(m, stored, secrets) == m && Merged(update, m, secrets) == m
  {
    var m := Merged(update, stored, secrets);
    assert forall k | k in secrets && Filled(m, k) && k in stored && !Filled(update, k) :: m[k] == stored[k];
  }

  /** What is read after an update has exactly the update's public fields, and a blank for each secret that
      the update or the store has. */
  lemma ReadAfterWrite(update: Config, stored: Config, secrets: seq<string>)
    ensures var r := Redacted(Merged(update, stored, secrets), secrets);
      && (forall k | k !in secrets :: (k in r <==> k in update) && (k in r ==> r[k] == update[k]))
      && (forall k | k in secrets :: (k in r <==> k in update || k in stored) && (k in r ==> r[k] == Text("")))
  {}

  // ---- sequences of updates ----

  function AfterUpdates(stored: Config, updates: seq<Config>, secrets: seq<string>): Config {
    if updates == [] then stored
    else Merged(updates[|updates| - 1], AfterUpdates(stored, updates[..|updates| - 1], secrets), secrets)
  }

  /** The value that the last update to fill the field gave it, or the stored one. */
  function LastFilled(stored: Json, updates: seq<Config>, name: string): Json {
    if updates == [] then stored
    else if Filled(updates[|updates| - 1], name) then updates[|updates| - 1][name]
    else LastFilled(stored, updates[..|updates| - 1], name)
  }

  /** Over any sequence of updates a stored secret is never lost: it is the last non-blank value sent for it,
      or the one it started with. */
  lemma {:induction false} SecretsSurvive(stored: Config, updates: seq<Config>, secrets: seq<string>, name: string)
    requires name in secrets && name in stored
    ensures var r := AfterUpdates(stored, updates, secrets);
      && name in r && r[name] == LastFilled(stored[name], updates, name)
      && (Present(stored, name) ==> Present(r, name))
  {
    if updates == [] {
    } else {
      SecretsSurvive(stored, updates[..|updates| - 1], secrets, name);
    }
  }

  /** The repository, given an update under a kind whose secret fields are `secrets`, loses a stored value
      exactly when the kind does not count the field as secret and the update leaves it out or empty. The update
      handler keeps the stored kind, so it never sends such an update. */
  lemma SecretLostExactly(update: Config, stored: Config, secrets: seq<string>, name: string)
    requires Present(stored, name)
    ensures !Present(Merged(update, stored, secrets), name) <==> name !in secrets && !Present(update, name)
  {}

  /** The result of a merge, field by field. */
  lemma MergedInFull(update: Config, stored: Config, secrets: seq<string>, k: string)
    ensures var r := Merged(update, stored, secrets);
      var blank := k !in update || !update[k].Text? || update[k].text == "";
      && (k in r <==> k in update || (k in secrets && k in stored))
      && (k in r ==> r[k] == if k in secrets && k in stored && blank then stored[k] else update[k])
  {}

  /** And of a redaction. */
  lemma RedactedInFull(cfg: Config, secrets: seq<string>, k: string)
    ensures var r := Redacted(cfg, secrets);
      (k in r <==> k in cfg) && (k in r ==> r[k] == if k in secrets then Text("") else cfg[k])
  {}
}
