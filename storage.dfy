/**
 * The durable key-value store, as far as the client uses it: one string under
 * the key "token". Reads and writes are awaited calls into the platform; the
 * model holds the stored value in a field and lets reads fail on request.
 */
module Storage {
  import opened Wrappers

  /** The storage key of the session token. */
  const TokenKey: string := "token"

  class TokenStore {
    /** The value stored under `TokenKey`, `None` when nothing is stored. */
    var saved: Option<string>

    constructor (initial: Option<string>)
      ensures saved == initial
    {
      saved := initial;
    }

    /** `getItem(TokenKey)` */
    method GetItem() returns (v: Option<string>)
      ensures v == saved
    {
      v := saved;
    }

    /** `setItem(TokenKey, v)` */
    method SetItem(v: string)
      modifies this
      ensures saved == Some(v)
    {
      saved := Some(v);
    }

    /** `removeItem(TokenKey)` */
    method RemoveItem()
      modifies this
      ensures saved == None
    {
      saved := None;
    }
  }
}
