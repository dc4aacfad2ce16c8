// The local key/value store holding the whole app state under "appData":
// opened lazily on first use; loading falls back to (and writes back) the
// seed data when the stored value is missing, not initialized or beyond
// recovery. The seed data and the JSON encoding of app data are parameters.

module Storage {
  import opened Common
  import opened Schema

  /** Whether the stored value calls for the seed data before validation:
      missing, falsy, or an object whose `initialized` is falsy. */
  predicate NeedsSeed(raw: Option<Raw>)
  {
    raw.None? || !Truthy(raw.value)
    || (IsObject(raw.value) && !(Field(raw.value, "initialized").Some? && Truthy(Field(raw.value, "initialized").value)))
  }

  /** What loadAppData returns for a stored value: None when it falls back
      to the seed data. */
  function LoadDecision(raw: Option<Raw>, sc: Schemas): (r: Option<AppData>)
    ensures NeedsSeed(raw) ==> r.None?
    ensures !NeedsSeed(raw) ==> r == ValidateAppData(raw.value, sc)
  {
    if NeedsSeed(raw) then None else ValidateAppData(raw.value, sc)
  }

  /** An initialized object is never replaced by the seed data: a stored
      object either passes the schema or is recovered. */
  lemma InitializedObjectKept(raw: Raw, sc: Schemas)
    requires raw.RObj? && Field(raw, "initialized") == Some(RBool(true))
    ensures LoadDecision(Some(raw), sc).Some?
    ensures sc.appData(raw).Some? ==> LoadDecision(Some(raw), sc) == sc.appData(raw)
  {
  }

  /** Only a truthy value that is not an object and fails the schema is
      reset after validation. */
  lemma ResetAfterValidation(raw: Raw, sc: Schemas)
    requires !NeedsSeed(Some(raw))
    ensures LoadDecision(Some(raw), sc).None? <==> !IsObject(raw) && sc.appData(raw).None?
  {
  }

  /** The store file. */
  class Store {
    /** Whether the store has been opened (the module's lazily set handle). */
    var isOpen: bool
    /** The value under "appData"; None when the key is unset. */
    var appData: Option<Raw>
    /** How many times the store was flushed to disk. */
    var saves: nat

    constructor(onDisk: Option<Raw>)
      ensures !isOpen && appData == onDisk && saves == 0
    {
      isOpen := false;
      appData := onDisk;
      saves := 0;
    }

    /** getStore: opens the file once. */
    method Open()
      modifies this`isOpen
      ensures isOpen
    {
      if !isOpen {
        isOpen := true;
      }
    }

    /** loadAppData. */
    method LoadAppData(seed: AppData, sc: Schemas, encode: AppData -> Raw) returns (d: AppData)
      modifies this
      ensures isOpen
      ensures LoadDecision(old(appData), sc).Some? ==>
        d == LoadDecision(old(appData), sc).value && appData == old(appData) && saves == old(saves)
      ensures LoadDecision(old(appData), sc).None? ==>
        d == seed && appData == Some(encode(seed)) && saves == old(saves) + 1
    {
      Open();
      var raw := appData;
      if raw.None? || !Truthy(raw.value)
         || (IsObject(raw.value) && !(Field(raw.value, "initialized").Some? && Truthy(Field(raw.value, "initialized").value)))
      {
        appData := Some(encode(seed));
        saves := saves + 1;
        return seed;
      }
      var validated := ValidateAppData(raw.value, sc);
      if validated.None? {
        appData := Some(encode(seed));
        saves := saves + 1;
        return seed;
      }
      d := validated.value;
    }

    /** saveAppData: stores the validated data, or the data as given when
      validation fails. */
    method SaveAppData(data: AppData, sc: Schemas, encode: AppData -> Raw)
      modifies this
      ensures isOpen && saves == old(saves) + 1
      ensures var v := ValidateAppData(encode(data), sc);
        appData == Some(if v.Some? then encode(v.value) else encode(data))
    {
      var validated := ValidateAppData(encode(data), sc);
      Open();
      appData := Some(if validated.Some? then encode(validated.value) else encode(data));
      saves := saves + 1;
    }

    /** resetAppData: stores and returns the seed data. */
    method ResetAppData(seed: AppData, encode: AppData -> Raw) returns (d: AppData)
      modifies this
      ensures isOpen && d == seed && appData == Some(encode(seed)) && saves == old(saves) + 1
    {
      Open();
      appData := Some(encode(seed));
      saves := saves + 1;
      d := seed;
    }
  }

  /** After a reset, loading returns the seed data again when the seed is
      marked initialized and passes the schema as encoded. */
  lemma ResetThenLoad(seed: AppData, sc: Schemas, encode: AppData -> Raw)
    requires encode(seed).RObj? && Field(encode(seed), "initialized") == Some(RBool(true))
    requires sc.appData(encode(seed)) == Some(seed)
    ensures LoadDecision(Some(encode(seed)), sc) == Some(seed)
  {
  }
}
