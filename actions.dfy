/**
 * The action value type (inc/action.h) and the compile-time settings
 * (inc/settings.h) the game and the regret nodes are built with.
 */
module Actions {

  const N_PLAYERS: int := 2
  const N_ACTIONS: int := 6
  const MAX_RERAISES: int := 1
  const BIG_BLIND: int := 5
  const SMALL_BLIND: int := 2
  const KEY_LENGTH: int := 35

  /** An action: its ordinal, its one-letter tag and the raise multiplier of the big blind. */
  datatype Action = Action(index: int, tag: char, multiplier: int)
  {
    predicate IsRaise() { 'A' <= tag <= 'Z' }
  }

  /** The default-constructed action. */
  const NoAction: Action := Action(-1, '?', -1)

  /** The six canonical actions in ordinal order: check/fold, call, and four raise sizes. */
  const Canonical: seq<Action> :=
    [Action(0, 'p', 0), Action(1, 'c', 0), Action(2, 'A', 1),
     Action(3, 'B', 2), Action(4, 'C', 3), Action(5, 'D', 5)]

  /** `std::isupper` on the ASCII letters used here. */
  predicate IsUpper(c: char) { 'A' <= c <= 'Z' }

  /** `std::tolower` on ASCII. */
  function ToLower(c: char): char
  {
    if 'A' <= c <= 'Z' then (c as int + 32) as char else c
  }
}
