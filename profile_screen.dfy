/**
 * ProfileScreen: the user's name, e-mail and phone, shown read-only until
 * "Editar Perfil" is pressed; "Salvar" stores them, "Cancelar" reloads the
 * stored ones.
 */
module ProfileScreen {
  import opened Domain

  datatype Profile = Profile(name: string, email: string, phone: string)

  /** `keyof UserProfile` */
  datatype Field = Name | Email | Phone

  function FieldValue(p: Profile, field: Field): string {
    match field
    case Name => p.name
    case Email => p.email
    case Phone => p.phone
  }

  /** `{ ...prev, [field]: value }`: that one field takes the new value. */
  function WithField(p: Profile, field: Field, value: string): (r: Profile)
    ensures FieldValue(r, field) == value
    ensures forall f :: f != field ==> FieldValue(r, f) == FieldValue(p, f)
  {
    match field
    case Name => p.(name := value)
    case Email => p.(email := value)
    case Phone => p.(phone := value)
  }

  /** Two profiles with the same three fields are the same profile. */
  lemma ProfileExtensionality(p: Profile, q: Profile)
    requires forall f :: FieldValue(p, f) == FieldValue(q, f)
    ensures p == q
  {
    assert FieldValue(p, Name) == FieldValue(q, Name);
    assert FieldValue(p, Email) == FieldValue(q, Email);
    assert FieldValue(p, Phone) == FieldValue(q, Phone);
  }

  /** Typing a value and then the old value back gives the profile back. */
  lemma WithFieldRestore(p: Profile, field: Field, value: string)
    ensures WithField(WithField(p, field, value), field, FieldValue(p, field)) == p
  {
    var q := WithField(WithField(p, field, value), field, FieldValue(p, field));
    forall f ensures FieldValue(q, f) == FieldValue(p, f) {
      if f != field {
        assert FieldValue(WithField(p, field, value), f) == FieldValue(p, f);
      }
    }
    ProfileExtensionality(q, p);
  }

  /** What a stored field reads back as: a string is itself, anything else shows as "". */
  function StringField(fields: map<string, Json>, key: string): (s: string)
    ensures key in fields && fields[key].JString? ==> s == fields[key].s
    ensures key !in fields || !fields[key].JString? ==> s == ""
  {
    if key in fields && fields[key].JString? then fields[key].s else ""
  }

  /** `JSON.parse` of the stored text, read as a profile; only an object is one. */
  function ProfileFromJson(doc: Json): (p: Option<Profile>)
    ensures p.Some? <==> doc.JObject?
  {
    match doc
    case JObject(fields) =>
      Some(Profile(StringField(fields, "name"), StringField(fields, "email"), StringField(fields, "phone")))
    case _ => None
  }

  /** `JSON.stringify(profile)`, which reads back as the same profile. */
  function ProfileJson(p: Profile): (doc: Json)
    ensures doc.JObject? && doc.fields.Keys == {"name", "email", "phone"}
    ensures ProfileFromJson(doc) == Some(p)
  {
    JObject(map["name" := JString(p.name), "email" := JString(p.email), "phone" := JString(p.phone)])
  }

  /** The profile a successful load shows, if the stored entry is one. */
  function StoredProfile(entries: map<string, Value>): (p: Option<Profile>)
    ensures p.Some? ==> ProfileKey in entries && entries[ProfileKey].Document?
  {
    if ProfileKey in entries && entries[ProfileKey].Document? then ProfileFromJson(entries[ProfileKey].doc)
    else None
  }

  /** Storing a profile and reading it back gives that profile. */
  lemma StoredProfileRoundTrip(entries: map<string, Value>, p: Profile)
    ensures StoredProfile(entries[ProfileKey := Document(ProfileJson(p))]) == Some(p)
  {
    var e := entries[ProfileKey := Document(ProfileJson(p))];
    assert e[ProfileKey] == Document(ProfileJson(p));
  }

  class Screen {
    var profile: Profile
    var isEditing: bool
    const store: KeyValueStore

    /** Empty fields, not editing. */
    constructor (store: KeyValueStore)
      ensures profile == Profile("", "", "") && !isEditing && this.store == store
    {
      profile := Profile("", "", "");
      isEditing := false;
      this.store := store;
    }

    /**
     * `loadProfile`: a stored profile replaces the one shown; a missing
     * entry, or a read that fails, leaves it as it was.
     */
    method LoadProfile(read: Outcome)
      modifies this`profile
      ensures read == Succeeded && StoredProfile(store.entries).Some? ==> profile == StoredProfile(store.entries).value
      ensures read == Failed || StoredProfile(store.entries).None? ==> profile == old(profile)
    {
      if read == Failed {
        return;
      }
      var saved := store.GetItem(ProfileKey);
      if saved.Some? && saved.value.Document? {
        var parsed := ProfileFromJson(saved.value.doc);
        if parsed.Some? {
          profile := parsed.value;
        }
      }
    }

    /** "Editar Perfil": the fields become editable. */
    method StartEditing()
      modifies this`isEditing
      ensures isEditing
    {
      isEditing := true;
    }

    /** `handleInputChange`: one field takes the typed value. */
    method HandleInputChange(field: Field, value: string)
      modifies this`profile
      ensures profile == WithField(old(profile), field, value)
    {
      profile := WithField(profile, field, value);
    }

    /**
     * `saveProfile`: on a successful write the profile is stored and
     * editing ends; on a failed one both storage and the form stay as
     * they were.
     */
    method SaveProfile(write: Outcome)
      modifies this`isEditing, store
      ensures write == Succeeded ==>
        store.entries == old(store.entries)[ProfileKey := Document(ProfileJson(profile))] && !isEditing
      ensures write == Succeeded ==> StoredProfile(store.entries) == Some(profile)
      ensures write == Failed ==> store.entries == old(store.entries) && isEditing == old(isEditing)
    {
      store.SetItem(ProfileKey, Document(ProfileJson(profile)), write);
      if write == Succeeded {
        isEditing := false;
        StoredProfileRoundTrip(old(store.entries), profile);
      }
    }

    /**
     * "Cancelar": editing ends and the stored profile is loaded again, so
     * unsaved edits are dropped whenever a profile is stored.
     */
    method CancelEditing(read: Outcome)
      modifies this`isEditing, this`profile
      ensures !isEditing
      ensures read == Succeeded && StoredProfile(store.entries).Some? ==> profile == StoredProfile(store.entries).value
      ensures read == Failed || StoredProfile(store.entries).None? ==> profile == old(profile)
    {
      isEditing := false;
      LoadProfile(read);
    }
  }
}
