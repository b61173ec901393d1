/** How an account trades on margin. */
module Accounts {
  datatype MarginMode = UNDEFINED | ISOLATED | CROSS | PORTFOLIO
}
