/** The four canonical goods and the two sides of a market (arena_game/goods.py). */
module Goods {

  datatype Good = Grain | Iron | Warhorse | Gems

  datatype Side = Buy | Sell

  /** The order in which the source enumerates the goods. */
  const GOOD_IDS: seq<Good> := [Grain, Iron, Warhorse, Gems]
}
