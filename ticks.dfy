/** The price observation every part of the bot works on, and the absolute value of a price difference. */
module Ticks {

  /** One price observation of the feed. */
  datatype Tick = Tick(time: int, price: real)

  function Abs(x: real): real { if x < 0.0 then -x else x }
}
