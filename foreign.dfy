/** Machine integers and the foreign types the state refers to but whose internals are not modelled. */
module Foreign {
  /** Rust's `u8`. */
  newtype u8 = x: int | 0 <= x < 0x100

  /** Rust's `u64`: message ids, DM ids, the nonce counter and the state cookie. */
  newtype u64 = x: int | 0 <= x < 0x1_0000_0000_0000_0000

  /** The largest `u64`; `gensym` cannot step past it. */
  const U64_MAX: u64 := 0xFFFF_FFFF_FFFF_FFFF

  /** `url::Url`, kept as an opaque value. */
  type Url(==)

  /** `mime::Mime`, kept as an opaque value. */
  type Mime(==)

  /** `chrono::DateTime<Utc>`, kept as an opaque value. */
  type DateTime(==)

  /** `webpage::Webpage`, a loaded link preview. */
  type Webpage(==)

  /** `vobject::Vcard`, a parsed contact card. */
  type Vcard(==)

  /** `uuid::Uuid`, a token some ids are exported as. */
  type Uuid(==)

  /** `eyre::Report`, the error a storage backend may return. */
  type Report(==)
}
