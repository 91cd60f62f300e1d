/**
 * The demo app's tooltip table: fetched once, validated entry by entry, and then
 * served from a cache.
 */
module TooltipHelper {
  import opened Json
  import opened Wrappers

  datatype TooltipOption = TooltipOption(name: string, description: string)

  datatype TooltipData = TooltipData(title: string, description: string, options: Option<seq<TooltipOption>>)

  /** How the fetch ended: it threw (network or body parse error), answered not-ok, or delivered a JSON body. */
  datatype FetchOutcome = Threw | NotOk | Body(json: Value)

  /** `typeof v === 'string' ? v : ''`. */
  function TextOrEmpty(v: Value): (s: string)
    ensures v.Str? ==> s == v.s
    ensures !v.Str? ==> s == ""
  {
    if TypeOf(v) == "string" then v.s else ""
  }

  /** One element of `options`: kept when it is a record with a non-empty name and description. */
  function ParseOption(v: Value): (r: Option<TooltipOption>)
    ensures r.Some? <==>
              IsObjectLike(v) && Get(v, "name").Str? && Get(v, "name").s != "" &&
              Get(v, "description").Str? && Get(v, "description").s != ""
    ensures r.Some? ==> r.value == TooltipOption(Get(v, "name").s, Get(v, "description").s)
    ensures r.Some? ==> r.value.name != "" && r.value.description != ""
  {
    if !IsObjectLike(v) then None
    else
      var name := TextOrEmpty(Get(v, "name"));
      var description := TextOrEmpty(Get(v, "description"));
      if name == "" || description == "" then None else Some(TooltipOption(name, description))
  }

  /** `options.map(...).filter(o => o !== null)`. */
  function ParseOptions(items: seq<Value>): (r: seq<TooltipOption>)
    ensures |r| <= |items|
  {
    if items == [] then [] else Kept(items[0]) + ParseOptions(items[1..])
  }

  /** The option an element contributes: itself when valid, else nothing. */
  function Kept(v: Value): seq<TooltipOption> {
    if ParseOption(v).Some? then [ParseOption(v).value] else []
  }

  /** One entry of the table: kept when it is a record with a non-empty title and description. */
  function ParseEntry(v: Value): (r: Option<TooltipData>)
    ensures r.Some? <==>
              IsObjectLike(v) && Get(v, "title").Str? && Get(v, "title").s != "" &&
              Get(v, "description").Str? && Get(v, "description").s != ""
    ensures r.Some? ==> r.value.title == Get(v, "title").s && r.value.description == Get(v, "description").s
    ensures r.Some? ==> (r.value.options.Some? <==> Get(v, "options").Arr?)
  {
    if !IsObjectLike(v) then None
    else
      var title := TextOrEmpty(Get(v, "title"));
      var description := TextOrEmpty(Get(v, "description"));
      var options := Get(v, "options");
      if title == "" || description == "" then None
      else Some(TooltipData(title, description, if options.Arr? then Some(ParseOptions(options.items)) else None))
  }

  /** The validated entries of a table. */
  function ValidEntries(entries: map<string, Value>): map<string, TooltipData> {
    map k | k in entries && ParseEntry(entries[k]).Some? :: ParseEntry(entries[k]).value
  }

  /** The validated table built from a body whose entries can be listed. */
  function ParseTable(json: Value): map<string, TooltipData> {
    ValidEntries(Entries(json))
  }

  /** The loop over `Object.entries(json)`: each entry is validated on its own. */
  method ParseEntries(entries: map<string, Value>) returns (parsed: map<string, TooltipData>)
    ensures parsed == ValidEntries(entries)
  {
    parsed := map[];
    var keys := entries.Keys;
    ghost var done: set<string> := {};
    while keys != {}
      invariant keys !! done && keys + done == entries.Keys
      invariant forall k :: k in parsed <==> k in done && ParseEntry(entries[k]).Some?
      invariant forall k :: k in parsed ==> parsed[k] == ParseEntry(entries[k]).value
      decreases keys
    {
      var key :| key in keys;
      var entry := ParseEntry(entries[key]);
      if entry.Some? {
        parsed := parsed[key := entry.value];
      }
      keys := keys - {key};
      done := done + {key};
    }
    assert parsed.Keys == ValidEntries(entries).Keys;
  }

  class TooltipHelper {
    var tooltips: map<string, TooltipData>
    var initialized: bool

    constructor ()
      ensures tooltips == map[] && !initialized
    {
      tooltips := map[];
      initialized := false;
    }

    /**
     * `init()` with the fetch's outcome as input.  After a first call it is
     * initialised; a second call does nothing.  A not-ok answer keeps the table,
     * a thrown error (including `Object.entries` of null) empties it, and a body
     * replaces it with its validated entries.
     */
    method Init(fetch: FetchOutcome)
      modifies this
      ensures initialized
      ensures old(initialized) ==> tooltips == old(tooltips)
      ensures !old(initialized) ==>
                tooltips == match fetch
                            case NotOk => old(tooltips)
                            case Threw => map[]
                            case Body(json) => if IsNullish(json) then map[] else ParseTable(json)
    {
      if initialized {
        return;
      }
      match fetch {
        case NotOk =>
          initialized := true;
          return;
        case Threw =>
          tooltips := map[];
        case Body(json) =>
          if IsNullish(json) {
            tooltips := map[];
          } else {
            var parsed := ParseEntries(Entries(json));
            tooltips := parsed;
          }
      }
      initialized := true;
    }

    /** `getTooltip(key)`. */
    function GetTooltip(key: string): (r: Option<TooltipData>)
      reads this
      ensures r.Some? <==> key in tooltips
      ensures r.Some? ==> r.value == tooltips[key]
    {
      if key in tooltips then Some(tooltips[key]) else None
    }
  }

  // ---------------------------------------------------------------------------

  /**
   * A key survives exactly when its value is an object (or array) with a
   * non-empty string title and description; it keeps its key, and any other key
   * is unknown to the table.
   */
  lemma EntrySurvival(json: Value, k: string)
    ensures k in ParseTable(json) <==>
              k in Entries(json) && IsObjectLike(Entries(json)[k]) &&
              Get(Entries(json)[k], "title").Str? && Get(Entries(json)[k], "title").s != "" &&
              Get(Entries(json)[k], "description").Str? && Get(Entries(json)[k], "description").s != ""
    ensures k in ParseTable(json) ==>
              ParseTable(json)[k].title == Get(Entries(json)[k], "title").s &&
              ParseTable(json)[k].description == Get(Entries(json)[k], "description").s
  {
  }

  /** `options` is absent unless the input is an array, and then lists the valid option records in input order. */
  lemma {:induction false} OptionsSpec(items: seq<Value>, o: TooltipOption)
    ensures o in ParseOptions(items) <==> exists i :: 0 <= i < |items| && ParseOption(items[i]) == Some(o)
    decreases |items|
  {
    if items != [] {
      OptionsSpec(items[1..], o);
      assert forall i :: 0 <= i < |items[1..]| ==> items[1..][i] == items[i + 1];
      if ParseOption(items[0]) == Some(o) {
        assert 0 < |items|;
      }
    }
  }

  /** Every listed option has a non-empty name and description. */
  lemma {:induction false} OptionsValid(items: seq<Value>, o: TooltipOption)
    requires o in ParseOptions(items)
    ensures o.name != "" && o.description != ""
    decreases |items|
  {
    if o !in Kept(items[0]) {
      OptionsValid(items[1..], o);
    }
  }

  lemma EntryOptions(v: Value)
    requires ParseEntry(v).Some?
    ensures ParseEntry(v).value.options.Some? <==> Get(v, "options").Arr?
    ensures Get(v, "options").Arr? ==> ParseEntry(v).value.options.value == ParseOptions(Get(v, "options").items)
  {
  }

  /** The options list keeps the relative order of the records it keeps, and dropping invalid records never reorders. */
  lemma {:induction false} OptionsConcat(a: seq<Value>, b: seq<Value>)
    ensures ParseOptions(a + b) == ParseOptions(a) + ParseOptions(b)
    decreases |a|
  {
    if a == [] {
      assert a + b == b;
    } else {
      calc {
        ParseOptions(a + b);
      == { assert (a + b)[0] == a[0] && (a + b)[1..] == a[1..] + b; }
        Kept(a[0]) + ParseOptions(a[1..] + b);
      == { OptionsConcat(a[1..], b); }
        Kept(a[0]) + (ParseOptions(a[1..]) + ParseOptions(b));
      }
    }
  }
}
