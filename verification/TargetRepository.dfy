/** The notification_targets repository and the update handler on top of it. */
module TargetRepository {
  import opened Common
  import opened TargetConfig

  /** A config as bytes: none, JSON null, a JSON object, or text that does not decode to a map. */
  datatype Raw = Empty | Null | Object(fields: Config) | Malformed

  /** `deleted` rows stay in the table. */
  datatype Target = Target(id: Id, name: string, kind: string, enabled: bool, config: Raw, deleted: bool)

  /** `Crash` is the run-time panic of a write to the nil map that JSON null decodes to. */
  datatype Result = Done | NotFound | BadConfig | BadName | Crash

  /** An unset config is stored as an empty object. */
  function ConfigJson(raw: Raw): Raw { if raw == Empty then Object(map[]) else raw }

  /** The fields of a config that decodes; an unset one and null have none. */
  function FieldsOf(raw: Raw): Config { if raw.Object? then raw.fields else map[] }

  function SecretsOf(secrets: map<string, seq<string>>, kind: string): seq<string> {
    if kind in secrets then secrets[kind] else []
  }

  /** Unicode white space, which a name must not consist of. */
  predicate IsSpace(c: char) {
    c in "\t\n\U{B}\U{C}\r \U{85}\U{A0}\U{1680}\U{2028}\U{2029}\U{202F}\U{205F}\U{3000}" || '\U{2000}' <= c <= '\U{200A}'
  }

  predicate Blank(name: string) { forall i | 0 <= i < |name| :: IsSpace(name[i]) }

  /** Some secret of the stored config would have to be put into the nil map. */
  predicate Restorable(stored: Config, names: seq<string>) { exists i | 0 <= i < |names| :: names[i] in stored }

  /** What an update stores, given that both configs decode. */
  function Updated(update: Raw, stored: Raw, names: seq<string>): Raw {
    if names == [] then ConfigJson(update)
    else if update == Null then Null
    else Object(Merged(FieldsOf(update), FieldsOf(stored), names))
  }

  function Shown(t: Target, names: seq<string>): Option<Target> {
    if names == [] || t.config == Null then Some(t)
    else if t.config.Object? then Some(t.(config := Object(Redacted(t.config.fields, names))))
    else None
  }

  /** Writing back the config that was shown stores what was stored before, and cannot crash. */
  lemma WritesBackWhatWasShown(t: Target, names: seq<string>)
    requires t.config != Empty && Shown(t, names).Some?
    ensures var config := Shown(t, names).value.config;
      Updated(config, t.config, names) == t.config && (names != [] && config == Null ==> t.config == Null)
  {
    if names != [] && t.config.Object? { WriteBackWhatWasRead(t.config.fields, names); }
  }

  /** The supplied fields put in; an omitted or null config leaves the old one. */
  function Overlay(t: Target, name: Option<string>, enabled: Option<bool>, config: Raw): Target {
    t.(name := if name.Some? then name.value else t.name,
       enabled := if enabled.Some? then enabled.value else t.enabled,
       config := if config == Empty || config == Null then t.config else config)
  }

  /** What the handler's update makes of the row. */
  lemma PatchedRow(before: Target, names: seq<string>, name: Option<string>, enabled: Option<bool>, config: Raw)
    requires before.config != Empty && !before.deleted && Shown(before, names).Some?
    ensures var t := Overlay(Shown(before, names).value, name, enabled, config);
      && t.id == before.id && t.kind == before.kind && t.name == (if name.Some? then name.value else before.name)
      && (names != [] && t.config == Null ==> before.config == Null)
      && (names != [] && t.config == Malformed ==> config == Malformed)
      && (names != [] ==> before.config != Malformed)
      && Target(t.id, t.name, t.kind, t.enabled, Updated(t.config, before.config, names), false)
         == Overlay(before, name, enabled, if config == Empty || config == Null then Empty
                                           else Updated(config, before.config, names))
  {
    WritesBackWhatWasShown(before, names);
  }

  /** Field `k` is secret for targets of the kind. */
  predicate IsSecret(secrets: map<string, seq<string>>, kind: string, k: string) { kind in secrets && k in secrets[kind] }

  /** `after` has the fields of `before`, those that are secret for the kind as empty text. */
  ghost predicate BlanksSecrets(secrets: map<string, seq<string>>, kind: string, before: Config, after: Config) {
    && after.Keys == before.Keys
    && forall k | k in after :: after[k] == if IsSecret(secrets, kind, k) then Text("") else before[k]
  }

  /** `after` is the update, with every secret that it leaves out, or sends empty, as it was before. */
  ghost predicate RestoresSecrets(
    secrets: map<string, seq<string>>, kind: string, before: Config, update: Config, after: Config)
  {
    && (forall k :: k in after <==> k in update || (k in before && IsSecret(secrets, kind, k)))
    && forall k | k in after ::
         after[k] == if k in before && IsSecret(secrets, kind, k) && (k !in update || !update[k].Text? || update[k].text == "")
                     then before[k] else update[k]
  }

  /** What Get shows of a target. */
  lemma ShowsBlanks(t: Target, secrets: map<string, seq<string>>)
    requires Shown(t, SecretsOf(secrets, t.kind)).Some?
    ensures var u := Shown(t, SecretsOf(secrets, t.kind)).value;
      && u == t.(config := u.config) && (t.config.Object? <==> u.config.Object?)
      && (t.config.Object? ==> BlanksSecrets(secrets, t.kind, t.config.fields, u.config.fields))
  {}

  /** What Update stores. */
  lemma UpdateRestores(secrets: map<string, seq<string>>, kind: string, before: Raw, update: Raw)
    requires before.Object? && update.Object?
    ensures var after := Updated(update, before, SecretsOf(secrets, kind));
      after.Object? && RestoresSecrets(secrets, kind, before.fields, update.fields, after.fields)
  {}

  predicate Live(rows: map<Id, Target>, id: Id) { id in rows && !rows[id].deleted }

  class TargetRepo {
    const secrets: map<string, seq<string>>
    var rows: map<Id, Target>

    /** Rows are keyed by id, and what is stored is never empty. */
    ghost predicate Valid()
      reads this
    {
      forall id | id in rows :: rows[id].id == id && rows[id].config != Empty
    }

    constructor (secrets: map<string, seq<string>>)
      ensures Valid() && rows == map[] && this.secrets == secrets
    {
      this.secrets, rows := secrets, map[];
    }

    method Insert(t: Target) returns (ok: bool)
      requires Valid()
      modifies this
      ensures Valid() && ok == (t.id !in old(rows))
      ensures rows == if ok then old(rows)[t.id := t.(config := ConfigJson(t.config))] else old(rows)
    {
      ok := t.id !in rows;
      if ok { rows := rows[t.id := t.(config := ConfigJson(t.config))]; }
    }

    /** The target with its secrets blanked; None if there is none or its config cannot be decoded. */
    method Get(id: Id) returns (t: Option<Target>)
      requires Valid()
      ensures t == if Live(rows, id) then Shown(rows[id], SecretsOf(secrets, rows[id].kind)) else None
    {
      if !Live(rows, id) { return None; }
      var raw := rows[id];
      var names := SecretsOf(secrets, raw.kind);
      if |names| == 0 { return Some(raw); }
      match raw.config
      case Object(fields) =>
        var redacted := Redact(fields, names);
        return Some(raw.(config := Object(redacted)));
      case Null => return Some(raw);
      case _ => return None;
    }

    method Merge(t: Target) returns (r: Result, config: Raw)
      requires Valid()
      ensures var names := SecretsOf(secrets, t.kind);
        r == if names == [] then Done
             else if !Live(rows, t.id) then NotFound
             else if rows[t.id].config == Malformed || t.config == Malformed then BadConfig
             else if t.config == Null && Restorable(FieldsOf(rows[t.id].config), names) then Crash
             else Done
      ensures r == Done && SecretsOf(secrets, t.kind) == [] ==> config == ConfigJson(t.config)
      ensures r == Done && Live(rows, t.id) ==> config == Updated(t.config, rows[t.id].config, SecretsOf(secrets, t.kind))
    {
      var names := SecretsOf(secrets, t.kind);
      if |names| == 0 { return Done, ConfigJson(t.config); }
      if !Live(rows, t.id) { return NotFound, Empty; }
      var stored := FieldsOf(rows[t.id].config);
      if rows[t.id].config == Malformed || t.config == Malformed { return BadConfig, Empty; }
      if t.config == Null {
        for i := 0 to |names|
          invariant forall j | 0 <= j < i :: names[j] !in stored
        {
          if names[i] in stored { return Crash, Empty; }
        }
        return Done, Null;
      }
      var merged := MergeBlankSecrets(FieldsOf(t.config), stored, names);
      return Done, Object(merged);
    }

    method Update(t: Target) returns (r: Result)
      requires Valid()
      modifies this
      ensures Valid()
      ensures var names := SecretsOf(secrets, t.kind);
        r == if !Live(old(rows), t.id) then NotFound
             else if names == [] then Done
             else if old(rows)[t.id].config == Malformed || t.config == Malformed then BadConfig
             else if t.config == Null && Restorable(FieldsOf(old(rows)[t.id].config), names) then Crash
             else Done
      ensures r != Done ==> rows == old(rows)
      ensures r == Done ==>
        var config := Updated(t.config, old(rows)[t.id].config, SecretsOf(secrets, t.kind));
        rows == old(rows)[t.id := Target(t.id, t.name, t.kind, t.enabled, config, false)]
    {
      var config;
      r, config := Merge(t);
      if r != Done { return; }
      if !Live(rows, t.id) { return NotFound; }
      rows := rows[t.id := Target(t.id, t.name, t.kind, t.enabled, config, false)];
    }

    method SoftDelete(id: Id) returns (r: Result)
      requires Valid()
      modifies this
      ensures Valid() && (r == Done <==> Live(old(rows), id)) && r != BadConfig
      ensures rows == if r == Done then old(rows)[id := old(rows)[id].(deleted := true)] else old(rows)
    {
      if !Live(rows, id) { return NotFound; }
      rows := rows[id := rows[id].(deleted := true)];
      return Done;
    }

    /** The update handler: the redacted target is read, the supplied fields are put in, the whole is written
        back and read again. Without a config in the request, or with null, the stored one survives unchanged,
        secrets included; and the handler never crashes. */
    method Patch(id: Id, name: Option<string>, enabled: Option<bool>, config: Raw) returns (r: Result, shown: Option<Target>)
      requires Valid()
      modifies this
      ensures Valid() && (r != Done ==> rows == old(rows))
      ensures r == NotFound <==> !Live(old(rows), id)
      ensures r != Crash
      ensures r == BadName ==> Blank(if name.Some? then name.value else old(rows)[id].name)
      ensures r == BadConfig ==>
        SecretsOf(secrets, old(rows)[id].kind) != [] && (old(rows)[id].config == Malformed || config == Malformed)
      ensures r == Done ==>
        var before := old(rows)[id];
        var names := SecretsOf(secrets, before.kind);
        && !Blank(if name.Some? then name.value else before.name)
        && rows == old(rows)[id := Overlay(before, name, enabled, if config == Empty || config == Null then Empty
                                                                  else Updated(config, before.config, names))]
        && shown == Shown(rows[id], names)
      ensures r == Done ==>
        var before := old(rows)[id];
        && rows.Keys == old(rows).Keys && rows[id].id == id && rows[id].kind == before.kind && !rows[id].deleted
        && rows[id].name == (if name.Some? then name.value else before.name)
        && rows[id].enabled == (if enabled.Some? then enabled.value else before.enabled)
        && (config == Empty || config == Null ==> rows[id].config == before.config)
        && (config.Object? && SecretsOf(secrets, before.kind) == [] ==> rows[id].config == config)
        && (forall jd | jd in old(rows) && jd != id :: rows[jd] == old(rows)[jd])
    {
      shown := None;
      var existing := Get(id);
      if existing == None { return if Live(rows, id) then BadConfig else NotFound, None; }
      PatchedRow(rows[id], SecretsOf(secrets, rows[id].kind), name, enabled, config);
      var t := existing.value;
      if name.Some? { t := t.(name := name.value); }
      if enabled.Some? { t := t.(enabled := enabled.value); }
      if config != Empty && config != Null { t := t.(config := config); }
      assert t == Overlay(existing.value, name, enabled, config);
      if Blank(t.name) { return BadName, None; }
      r := Update(t);
      if r != Done { return; }
      shown := Get(id);
    }
  }

  /** A caller of the repository that changes the kind of a target: the token of the old kind is gone. */
  method LosesSecret(repo: TargetRepo, id: Id, token: string) returns (lost: bool)
    requires repo.Valid() && id !in repo.rows && token != "" && SecretsOf(repo.secrets, "plain") == []
    modifies repo
    ensures lost && id in repo.rows && repo.rows[id].config == Object(map[])
  {
    var ok := repo.Insert(Target(id, "t", "chat", true, Object(map["token" := Text(token)]), false));
    var r := repo.Update(Target(id, "t", "plain", true, Object(map[]), false));
    lost := r == Done;
  }

  /** And one that sends JSON null to a target with a stored token. */
  method CrashesOnNull(repo: TargetRepo, id: Id, token: string) returns (r: Result)
    requires repo.Valid() && id !in repo.rows && SecretsOf(repo.secrets, "chat") == ["token"]
    modifies repo
    ensures r == Crash
  {
    var stored := Target(id, "t", "chat", true, Object(map["token" := Text(token)]), false);
    var ok := repo.Insert(stored);
    assert ["token"][0] in FieldsOf(repo.rows[id].config);
    r := repo.Update(stored.(config := Null));
  }

  /** Names of nothing but white space are blank, and no others. */
  lemma BlankNames()
    ensures Blank("") && Blank(" \t\r\n") && !Blank("a") && !Blank(" a ") && !Blank("-")
  {
    assert " a "[1] == 'a';
    assert "a"[0] == 'a' && "-"[0] == '-';
  }
}
