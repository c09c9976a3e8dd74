/** The name resolver: the selectable names a node offers, and the
    first-match lookup that turns a chosen name into its URL. */
module Resolver {
  import opened Types

  /** The `name` fields of `entries`, in order (the list comprehension of `INPUT_TYPES`). */
  function Names(entries: seq<Entry>): (r: seq<string>)
    ensures |r| == |entries|
    ensures forall i :: 0 <= i < |r| ==> r[i] == entries[i].name
  {
    if entries == [] then [] else [entries[0].name] + Names(entries[1..])
  }

  /** The choices a node offers: `config.get(key, [])` mapped to names. */
  function Choices(config: Config, cat: Category): (r: seq<string>)
    ensures cat.Key() !in config ==> r == []
    ensures cat.Key() in config ==>
      |r| == |config[cat.Key()]| &&
      forall i :: 0 <= i < |r| ==> r[i] == config[cat.Key()][i].name
  {
    if cat.Key() in config then Names(config[cat.Key()]) else []
  }

  /** The index of the first record named `name`, or `|entries|` when there is none. */
  function FirstIndex(entries: seq<Entry>, name: string): (k: nat)
    ensures k <= |entries|
    ensures forall j :: 0 <= j < k ==> entries[j].name != name
    ensures k < |entries| ==> entries[k].name == name
  {
    if entries == [] then 0
    else if entries[0].name == name then 0
    else 1 + FirstIndex(entries[1..], name)
  }

  /** The URL of the first record named `name`, if any. */
  function FirstMatch(entries: seq<Entry>, name: string): (r: Option<string>)
    ensures r.None? <==> forall i :: 0 <= i < |entries| ==> entries[i].name != name
    ensures r.Some? ==>
      exists i :: 0 <= i < |entries| && entries[i].name == name && entries[i].url == r.value &&
        forall j :: 0 <= j < i ==> entries[j].name != name
  {
    var k := FirstIndex(entries, name);
    if k < |entries| then Some(entries[k].url) else None
  }

  /** The lookup loop of the download routine: scan the records in order and
      stop at the first one whose name matches. */
  method LookupUrl(entries: seq<Entry>, name: string) returns (url: Option<string>)
    ensures url == FirstMatch(entries, name)
  {
    url := None;
    for i := 0 to |entries|
      invariant url == None
      invariant forall j :: 0 <= j < i ==> entries[j].name != name
    {
      if entries[i].name == name {
        url := Some(entries[i].url);
        break;
      }
    }
  }

  /** A name is offered as a choice exactly when the lookup finds a record for it. */
  lemma ChoiceResolves(config: Config, cat: Category, name: string)
    ensures name in Choices(config, cat) <==>
      cat.Key() in config && FirstMatch(config[cat.Key()], name).Some?
  {
    if cat.Key() in config {
      var entries := config[cat.Key()];
      var choices := Choices(config, cat);
      if name in choices {
        var i :| 0 <= i < |choices| && choices[i] == name;
        assert entries[i].name == name;
      }
      if FirstMatch(entries, name).Some? {
        var i :| 0 <= i < |entries| && entries[i].name == name;
        assert choices[i] == name;
      }
    }
  }

  /** Records after the first match cannot change the result, whatever they hold. */
  lemma {:induction false} FirstMatchIgnoresLater(entries: seq<Entry>, more: seq<Entry>, name: string)
    requires FirstMatch(entries, name).Some?
    ensures FirstMatch(entries + more, name) == FirstMatch(entries, name)
  {
    var k := FirstIndex(entries, name);
    assert (entries + more)[k] == entries[k];
  }
}
