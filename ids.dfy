/**
 * Identifier and amount types shared by the account, transaction and
 * processor modules, plus the Option type that stands for Rust's `Option`.
 *
 * The identifier widths live in src/models/id.rs, which is not part of this
 * model, so both identifiers are unbounded naturals here.
 */
module Ids {

  /** A client (account) identifier. */
  type ClientId = nat

  /** A transaction identifier. */
  type TxId = nat

  /**
   * A monetary amount, counted exactly in ten-thousandths of a currency unit
   * (1.0 is 10000). The source stores `f32`; the model uses exact integers.
   */
  type Amount = int

  /** One currency unit expressed as an `Amount`. */
  const Unit: Amount := 10000

  datatype Option<+T> = None | Some(value: T)
}
