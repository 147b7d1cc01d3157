/** `configEdit.py`: the back end's configuration file, a JSON object of
    sections (`WEBSOCKET_CONFIG`, ...) each holding named items. An item is
    changed by loading the file, assigning `content[section][item]` in place
    and saving it back; a reset copies the default file over it. */
module ConfigEdit {
  import opened Wrappers
  import opened Py

  /** A configuration document: the top-level JSON object of a file. */
  type Content = map<string, PyValue>

  /** `content[section][item]`: `KeyError` for a missing section or item;
      `TypeError` when the section is not a dictionary (a list or string
      cannot be indexed by a string, `None` or a number not at all). */
  function Get(content: Content, section: string, item: string): (r: Outcome<PyValue>)
    ensures r.Value? <==> section in content && content[section].PDict? && item in content[section].entries
    ensures r.Value? ==> r.value == content[section].entries[item]
    ensures r == Raises(TypeError) <==> section in content && !content[section].PDict?
  {
    if section !in content then Raises(KeyError)
    else match content[section]
      case PDict(entries) => if item in entries then Value(entries[item]) else Raises(KeyError)
      case _ => Raises(TypeError)
  }

  /** The document `config_update_by` leaves behind: the item assignment
      `content[section][item] = value`, which raises `KeyError` for a
      missing section and `TypeError` for a section that is not a
      dictionary. */
  function UpdatedBy(content: Content, section: string, item: string, value: PyValue): (r: Outcome<Content>)
    ensures r.Raises? <==> section !in content || !content[section].PDict?
    ensures r.Raises? ==> r.error == if section in content then TypeError else KeyError
    ensures r.Value? ==> r.value.Keys == content.Keys
  {
    if section !in content then Raises(KeyError)
    else match content[section]
      case PDict(entries) => Value(content[section := PDict(entries[item := value])])
      case _ => Raises(TypeError)
  }

  /** After a successful update the item reads back as the new value. */
  lemma GetAfterUpdate(content: Content, section: string, item: string, value: PyValue)
    requires UpdatedBy(content, section, item, value).Value?
    ensures Get(UpdatedBy(content, section, item, value).value, section, item) == Value(value)
  {
  }

  /** Every other section, and every other item of the same section, reads
      exactly as before (present or missing, and with the same error). */
  lemma OthersUnchanged(content: Content, section: string, item: string, value: PyValue, s: string, i: string)
    requires UpdatedBy(content, section, item, value).Value?
    requires s != section || i != item
    ensures Get(UpdatedBy(content, section, item, value).value, s, i) == Get(content, s, i)
  {
    var r := UpdatedBy(content, section, item, value).value;
    if s == section {
      assert r[s].entries == content[s].entries[item := value];
    }
  }

  /** Updating the same item twice keeps only the second value. */
  lemma LastUpdateWins(content: Content, section: string, item: string, v1: PyValue, v2: PyValue)
    requires UpdatedBy(content, section, item, v1).Value?
    ensures UpdatedBy(UpdatedBy(content, section, item, v1).value, section, item, v2)
         == UpdatedBy(content, section, item, v2)
  {
    var once := UpdatedBy(content, section, item, v1).value;
    var entries := content[section].entries;
    assert once[section] == PDict(entries[item := v1]);
    assert entries[item := v1][item := v2] == entries[item := v2];
    assert once[section := PDict(entries[item := v2])] == content[section := PDict(entries[item := v2])];
  }

  /** A Python `dict` object, which `config_update_by` changes in place. */
  class ConfigDict {
    var content: Content

    constructor (content: Content)
      ensures this.content == content
    {
      this.content := content;
    }
  }

  /** `config_update_by(content, config_type, config_item, config_value)`:
      assigns the item inside the very dictionary it was given and returns
      that same object; an exception leaves the dictionary as it was. */
  method ConfigUpdateBy(d: ConfigDict, section: string, item: string, value: PyValue)
    returns (r: Outcome<ConfigDict>)
    modifies d
    ensures UpdatedBy(old(d.content), section, item, value).Value? ==>
      r == Value(d) && d.content == UpdatedBy(old(d.content), section, item, value).value
    ensures UpdatedBy(old(d.content), section, item, value).Raises? ==>
      r == Raises(UpdatedBy(old(d.content), section, item, value).error) && d.content == old(d.content)
  {
    if section !in d.content {
      return Raises(KeyError);
    }
    match d.content[section]
    case PDict(entries) =>
      d.content := d.content[section := PDict(entries[item := value])];
      return Value(d);
    case _ =>
      return Raises(TypeError);
  }

  /** The two files: `config.json` and `configDefault.json`. Reading and
      writing them (`config_load_from`, `config_save_to`) is taken as exact:
      a load yields a fresh dictionary equal to what was last saved. */
  class ConfigFiles {
    var primary: Content
    var defaults: Content

    constructor (primary: Content, defaults: Content)
      ensures this.primary == primary && this.defaults == defaults
    {
      this.primary := primary;
      this.defaults := defaults;
    }

    /** `config_load()`. */
    method ConfigLoad() returns (d: ConfigDict)
      ensures fresh(d) && d.content == primary
    {
      d := new ConfigDict(primary);
    }

    /** `config_save(content)`. */
    method ConfigSave(d: ConfigDict)
      modifies this`primary
      ensures primary == d.content
    {
      primary := d.content;
    }

    /** `config_reset()`: the default file's contents become the primary
      file's; the default file is untouched. */
    method ConfigReset()
      modifies this`primary
      ensures primary == defaults
    {
      var d := new ConfigDict(defaults);
      ConfigSave(d);
    }

    /** `config_update(config_type, config_item, config_value)`: load, update
        by, save. An exception propagates before the save, so the file keeps
        its old contents. */
    method ConfigUpdate(section: string, item: string, value: PyValue) returns (err: Option<PyError>)
      modifies this`primary
      ensures UpdatedBy(old(primary), section, item, value).Value? ==>
        err.None? && primary == UpdatedBy(old(primary), section, item, value).value
      ensures UpdatedBy(old(primary), section, item, value).Raises? ==>
        err == Some(UpdatedBy(old(primary), section, item, value).error) && primary == old(primary)
    {
      var content := ConfigLoad();
      var r := ConfigUpdateBy(content, section, item, value);
      if r.Raises? {
        return Some(r.error);
      }
      ConfigSave(r.value);
      err := None;
    }
  }
}
