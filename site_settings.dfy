/**
 * The site settings editor (src/pages/admin/SiteSettings.tsx): the loaded
 * settings, the record of edited values keyed by setting id, the lookup by
 * key, and the rows shown for the general and social-link settings.
 */
module SiteSettingsPage {
  import opened Types
  import opened Text
  import opened EditMaps

  /** The general settings, in the order the page shows them. */
  const GeneralKeys: seq<string> := ["site_name", "footer_copyright"]

  /** The social-link settings, in the order the page shows them. */
  const SocialKeys: seq<string> := ["instagram_link", "twitter_link", "linkedin_link", "github_link"]

  const LinkSuffix: string := "_link"

  /** The (id, value) pair each loaded setting contributes to the edit record. */
  function ValuePairs(data: seq<SiteSetting>): (pairs: seq<(string, string)>)
    ensures |pairs| == |data|
    ensures forall i :: 0 <= i < |data| ==> pairs[i] == (data[i].id, data[i].value)
  {
    seq(|data|, i requires 0 <= i < |data| => (data[i].id, data[i].value))
  }

  /** `settings.find(s => s.key === key)`: the first setting with the key, if any. */
  function SettingByKey(settings: seq<SiteSetting>, key: string): (r: Option<SiteSetting>)
    ensures r.Some? <==> exists i :: 0 <= i < |settings| && settings[i].key == key
    ensures r.Some? ==> exists i :: (0 <= i < |settings| && settings[i] == r.value && r.value.key == key
      && forall j :: 0 <= j < i ==> settings[j].key != key)
    decreases |settings|
  {
    if |settings| == 0 then None
    else if settings[0].key == key then Some(settings[0])
    else
      var r := SettingByKey(settings[1..], key);
      assert forall i :: 0 < i < |settings| ==> settings[i] == settings[1..][i - 1];
      r
  }

  /** The rows shown for a list of keys: each key that has a setting, in the list's order. */
  function RowsFor(keys: seq<string>, settings: seq<SiteSetting>): (rows: seq<(string, SiteSetting)>)
    ensures |rows| <= |keys|
    ensures forall i :: 0 <= i < |rows| ==> SettingByKey(settings, rows[i].0) == Some(rows[i].1)
    ensures forall k :: k in keys && SettingByKey(settings, k).Some? ==> k in RowKeys(rows)
    ensures IsSubsequence(RowKeys(rows), keys)
    decreases |keys|
  {
    if |keys| == 0 then []
    else
      var rest := RowsFor(keys[1..], settings);
      assert forall k :: k in keys ==> k == keys[0] || k in keys[1..];
      var found := SettingByKey(settings, keys[0]);
      if found.None? then rest
      else
        var rows := [(keys[0], found.value)] + rest;
        assert RowKeys(rows) == [keys[0]] + RowKeys(rest);
        rows
  }

  /** The keys of a list of rows. */
  function RowKeys(rows: seq<(string, SiteSetting)>): (keys: seq<string>)
    ensures |keys| == |rows| && forall i :: 0 <= i < |rows| ==> keys[i] == rows[i].0
  {
    seq(|rows|, i requires 0 <= i < |rows| => rows[i].0)
  }

  /** `key.replace('_link', '')`: the key with its first "_link" removed. */
  function LinkName(key: string): (name: string)
    ensures !Contains(key, LinkSuffix) ==> name == key
    ensures Contains(key, LinkSuffix) ==> |name| == |key| - |LinkSuffix|
  {
    ReplaceFirst(key, LinkSuffix, "")
  }

  /** The label of a social row: the link name with its first character upper-cased. */
  function SocialLabel(key: string): (caption: string)
    ensures |caption| == |LinkName(key)|
    ensures |caption| > 0 ==> caption[0] == ToUpper(LinkName(key)[0])
  {
    Capitalize(LinkName(key))
  }

  /** The input's placeholder for a social row. */
  function SocialPlaceholder(key: string): (placeholder: string)
    ensures |placeholder| == |"https://"| + |LinkName(key)| + |".com/username"|
    ensures StartsWith(placeholder, "https://")
    ensures placeholder[8..8 + |LinkName(key)|] == LinkName(key)
    ensures placeholder[|placeholder| - |".com/username"|..] == ".com/username"
  {
    "https://" + LinkName(key) + ".com/username"
  }

  /** For a key `name_link` whose name has no underscore, the link name is `name`. */
  lemma LinkNameOfKey(name: string)
    requires '_' !in name
    ensures LinkName(name + LinkSuffix) == name
    ensures SocialLabel(name + LinkSuffix) == Capitalize(name)
    ensures SocialPlaceholder(name + LinkSuffix) == "https://" + name + ".com/username"
  {
    var key := name + LinkSuffix;
    assert OccursAt(key, LinkSuffix, |name|) by {
      assert key[|name|..|name| + |LinkSuffix|] == LinkSuffix;
    }
    assert Contains(key, LinkSuffix);
    var i := IndexOf(key, LinkSuffix).value;
    assert forall j :: 0 <= j < |name| ==> key[j] != '_';
    assert key[i] == '_' by {
      assert OccursAt(key, LinkSuffix, i);
      assert key[i..i + |LinkSuffix|] == LinkSuffix;
      assert key[i..i + |LinkSuffix|][0] == key[i];
      assert LinkSuffix[0] == '_';
    }
    assert i == |name|;
    assert key[..i] == name;
    assert key[i + |LinkSuffix|..] == "";
  }

  lemma CapitalizeInstagram()
    ensures Capitalize("instagram") == "Instagram"
  {
    assert ToUpper('i') == 'I';
  }

  /** "instagram_link" is labelled "Instagram". */
  lemma InstagramLabel()
    ensures SocialLabel("instagram_link") == "Instagram"
  {
    assert "instagram" + LinkSuffix == "instagram_link";
    LinkNameOfKey("instagram");
    CapitalizeInstagram();
  }

  /** `editedSettings[id] || ''`: the input shows the edited value, or nothing. */
  function InputValue(edited: map<string, string>, id: string): (v: string)
    ensures id !in edited ==> v == ""
    ensures id in edited ==> v == edited[id]
  {
    if id in edited then edited[id] else ""
  }

  /** Right after loading settings with distinct ids, every input shows its setting's value. */
  lemma LoadedInputsShowValues(data: seq<SiteSetting>)
    requires forall i, j :: 0 <= i < j < |data| ==> data[i].id != data[j].id
    ensures forall i :: 0 <= i < |data| ==> InputValue(LastWins(ValuePairs(data)), data[i].id) == data[i].value
  {
    DistinctKeysKeepAll(ValuePairs(data));
  }

  class SiteSettings {
    var settings: seq<SiteSetting>
    var editedSettings: map<string, string>

    constructor()
      ensures settings == [] && editedSettings == map[]
    {
      settings := [];
      editedSettings := map[];
    }

    /** The fetch effect: the settings are kept and the edit record maps each id to its value. */
    method LoadSettings(data: seq<SiteSetting>)
      modifies this
      ensures settings == data && editedSettings == LastWins(ValuePairs(data))
      ensures forall s :: s in data ==> s.id in editedSettings
    {
      settings := data;
      editedSettings := BuildRecord(ValuePairs(data));
      forall s | s in data ensures s.id in editedSettings {
        var i :| 0 <= i < |data| && data[i] == s;
        assert ValuePairs(data)[i].0 == s.id;
      }
    }

    /** `handleChange`: only the given id's entry is replaced. */
    method HandleChange(id: string, value: string)
      modifies this
      ensures editedSettings == old(editedSettings)[id := value]
      ensures forall k :: k != id ==> (k in editedSettings <==> k in old(editedSettings))
      ensures forall k :: k != id && k in editedSettings ==> editedSettings[k] == old(editedSettings)[k]
      ensures settings == old(settings)
    {
      editedSettings := editedSettings[id := value];
    }

    /** `handleSave`: one update per entry of the edit record, with the entry's value. */
    method HandleSave() returns (updates: seq<(string, string)>)
      ensures |updates| == |editedSettings|
      ensures forall k :: k in editedSettings ==> exists i :: 0 <= i < |updates| && updates[i] == (k, editedSettings[k])
      ensures forall i :: 0 <= i < |updates| ==> updates[i].0 in editedSettings && editedSettings[updates[i].0] == updates[i].1
    {
      updates := UpdateCalls(editedSettings);
    }
  }
}
