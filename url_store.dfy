/** The DynamoDB table `ShortenedUrls` shared by the two handlers, as an
    in-memory map from `short_code` to the item's other attributes. */
module UrlStore {
  import opened Wrappers
  import opened ShortCode

  /** Item attributes besides the key. */
  datatype Record = Record(longUrl: string, createdAt: nat)

  /** What the create handler ever writes: keys that are default-length
      codes, and non-empty long URLs. */
  predicate WellFormed(items: map<string, Record>) {
    forall code :: code in items ==> IsShortCode(code) && items[code].longUrl != ""
  }

  class Table {
    var items: map<string, Record>

    /** The table as it exists when the handler's module is loaded. */
    constructor (initial: map<string, Record>)
      ensures items == initial
    {
      items := initial;
    }

    /** `table.put_item(Item=...)`: an unconditional write that replaces any
        item with the same key; `fault` is the error the service raises, if any. */
    method PutItem(key: string, item: Record, fault: Option<string>) returns (error: Option<string>)
      modifies this
      ensures error == fault
      ensures fault.None? ==> items == old(items)[key := item]
      ensures fault.Some? ==> items == old(items)
    {
      error := fault;
      if fault.None? {
        items := items[key := item];
      }
    }
  }
}
