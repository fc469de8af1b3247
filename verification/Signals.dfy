/** What a strategy asks for. */
module Signals {

  datatype Action = Hold | Buy | Sell | Exit | Short | Cover
}
