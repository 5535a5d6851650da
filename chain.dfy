/** What the pages learn from the wallet's provider about a contract address. */
module Chain {
  import opened Wrappers

  /** `getCode` resolved (None when it throws) and returned something other than the
      empty code '0x', that is, a contract is deployed at the address. */
  predicate HasCode(code: Option<string>) {
    code.Some? && code.value != "0x"
  }
}
