/** The loop of getSubscriptionFields() that applies the resolved table to the cleaned record. */
module FieldMap {
  import opened PhpValues
  import opened Mapping

  /** Walks the table as `inxKey => magKey`, skips `email`, and copies `data[magKey]` to
      `result[inxKey]` when isset() holds, i.e. when the field is present and not null (an empty
      string is copied). */
  method MapFields(table: Table, data: Record) returns (result: Record)
    ensures EMAIL !in result
    ensures result.Keys <= table.Keys
    ensures forall k :: k in result ==> table[k] in data && IsSet(data[table[k]]) && result[k] == data[table[k]]
    ensures forall k :: k in table && k != EMAIL && table[k] in data && IsSet(data[table[k]]) ==> k in result
  {
    result := map[];
    var pending := table.Keys;
    while pending != {}
      invariant pending <= table.Keys
      invariant EMAIL !in result
      invariant result.Keys <= table.Keys - pending
      invariant forall k :: k in result ==> table[k] in data && IsSet(data[table[k]]) && result[k] == data[table[k]]
      invariant forall k :: k in table && k !in pending && k != EMAIL && table[k] in data && IsSet(data[table[k]]) ==>
                  k in result
      decreases pending
    {
      var inxKey :| inxKey in pending;
      pending := pending - {inxKey};
      if inxKey == EMAIL {
        continue;
      }
      var magKey := table[inxKey];
      if magKey in data && IsSet(data[magKey]) {
        result := result[inxKey := data[magKey]];
      }
    }
  }
}
