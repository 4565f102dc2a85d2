# CFR poker engine core in Dafny

This project models the sequential core of a poker strategy trainer.
The trainer learns a two-player betting strategy by Counterfactual Regret
Minimization (CFR) self-play, on two-player Texas Hold'em and on the smaller
Leduc poker. The model covers:

- **Card values** (`cards.dfy`, `deck.dfy`): the `Card` decoded from a code
  0..51 with its rank index, suit, value and suit characters and one-hot
  hashes; the rank-only comparisons; the 52-card `Deck` class with its draw
  cursor and its in-place shuffle.
- **Actions** (`actions.dfy`): the six canonical actions (`p`, `c`, `A`..`D`)
  and their raise multipliers.
- **The seat record** (`players.dfy`): `Player` with its betting state,
  contribution, raise counter, two card slots and the per-hand history,
  whose shape (a leading `-`, at most one action per round) every mutator
  keeps.
- **Betting** (`betting.dfy`): the seat-level rules shared by both games. They
  cover check and fold, call, raise with the re-raise alert, the round-end
  test, the reset between rounds, the premature end, the largest
  contribution and the remaining-seat count. Pot accounting is stated as
  "the `uint16_t` pot equals the sum of the contributions modulo 2^16".
- **The hand evaluator** (`ranks.dfy`, `evaluator.dfy`):
  - the `Rank` value with its inverted order (a smaller value is a better hand);
  - the category breakpoints, card binning, `compare_cards` and the count helpers;
  - the non-flush perfect hash over its `dp` table;
  - the board-pair finder;
  - the `Rank` constructors for boards of three, four and five cards (one
    `Evaluate` method): the flush path, the non-flush path and the descriptor
    flags, all read from the generated lookup tables;
  - the descriptor string.
- **The table generators** (`flush_table.dfy`, `pair_table.dfy`,
  `straight_table.dfy`): the three classification scripts that define the
  evaluator's `suits`, `pairs`/`count_hash` and `straights` tables. Their hash
  encodings come with round-trip and range lemmas, and each `generate` loop
  fills an array that is proved to hold the classification function.
- **Small helpers** (`utils.dfy`, `bits.dfy`, `wrappers.dfy`): key padding, the
  de-duplicated prefix store, 16-bit masks and the `Result` type.
- **The Hold'em state machine** (`holdem.dfy`): the `Holdem` class with its
  seats, pot, round, shared history and winners:
  - `start_game`, `take_action` (with the end of a round and the showdown)
    and `next_player`;
  - `get_reward`, the legal-action mask and list, and `create_key`.
  - Every operation keeps the invariant of a hand in play: the pot holds what
    the seats put in, the seats keep the dealt cards, and every seat carries
    the evaluator's rank for the board of the current round.
- **The Leduc state machine** (`leduc.dfy`): the same contract on the six-card
  Leduc deck, with its own one-card ranking, which provably never ties.
- **The regret-matching node** (`node.dfy`): the `Node` class. Its
  `get_strategy` is proved to return a probability distribution that follows
  the positive regrets and ignores masked actions. Its average strategy sums
  to 1, and its accumulators change only where the source changes them.

Floating-point values are modelled as `real`. Fixed-width integers are
modelled explicitly where the source's width matters: the `uint16_t` pot,
the `uint8_t` largest contribution and the `int8_t` Leduc ranks.

Where the source's comments and its code disagree, the model follows the
code:

- Hold'em's `find_winner` considers only seats that are IN. A seat still to
  act is not considered.
- Hold'em's `next_round` never produces RIVER. The TURN goes straight to
  REVEAL, so the showdown compares the six-card ranks of the turn board.
- Hold'em's big blind starts as NO_ACTION and Leduc's as IN. So a Hold'em
  fold by the small blind preflop does not end the hand early.

One place departs from this rule: the board-pair finder behind the
four-of-a-kind flag of the descriptor. Its code keys the board by rank index
where the value character is meant (see "## Findings"). `Ranks.Describe`, and
through it the Hold'em rank strings and information-set keys, use the
intended finder. `Ranks.DescribeAsWritten` is the descriptor as the code
computes it, and `Ranks.DescribeCounterexample` shows a hand where the two
differ.

## Model

| member | source | states |
|---|---|---|
| Cards.IntToStr | src/card.cpp:55-70 | a rank index maps to a real value character exactly when it is at most 12; indices 0..7 give the digits '2'..'9' |
| Cards.SuitChar | src/card.cpp:36-52 | the suit character is one of c, d, h, s exactly for suit indices 0..3, '?' otherwise |
| Cards.SuitHashOf | src/card.cpp:33 | the suit hash is 1 << (3 * suit), so it is positive, at most 512 and congruent to 1 mod 8 only for clubs |
| Cards.FromCode | src/card.cpp:26-53 | a card built from code 0..51 has rank index code / 4 and suit index code % 4, and its characters and hashes agree with them |
| Cards.ToString | inc/card.h:27 | the card's string is its value character followed by its suit character |
| Cards.SignedChar | inc/card.h:34 | a value stored in a signed char lies in -128..127 and is unchanged when it already fits |
| Cards.GetValue | inc/card.h:34 | get_value is the rank index plus 2 (2..14) for a card of the deck, always within a signed char |
| Cards.CodeRoundTrip | src/card.cpp:26-31 | decoding code 4 * rank + suit gives back that rank and that suit |
| Cards.IntToStrInjective | src/card.cpp:55-70 | different rank indices 0..12 get different value characters |
| Cards.ValidCardsByCode | src/card.cpp:26-53 | two cards of the deck are equal exactly when their codes are |
| Cards.SameRankCompareEqual | inc/card.h:39-44 | two different cards of the same rank compare equal and neither is less than the other |
| Cards.ComparisonsConsistent | inc/card.h:39-44 | the six operators agree with one another and order any two cards totally by rank |
| Decks.FreshDeck | src/deck.cpp:27-29 | the constructor's layout: 52 slots, slot i holding the card of code i |
| Decks.FreshDeckDistinct | src/deck.cpp:27-29 | no card occurs twice in the freshly built deck |
| Decks.DistinctByMultiset | src/deck.cpp:36 | a permutation of a repeat-free deck has no repeats either, so a shuffle never duplicates a card |
| Decks.Deck.constructor | src/deck.cpp:24-30 | the new deck holds the cards in code order with the cursor at 0 |
| Decks.Deck.Shuffle | src/deck.cpp:32-37 | shuffling rewinds the cursor and leaves the same cards (as a multiset) in the same array |
| Decks.Deck.Draw | inc/deck.h:29 | draw() returns the card under the cursor and advances the cursor by one |
| Decks.Deck.DrawAt | inc/deck.h:30 | draw(idx) returns a card of the standard deck and moves nothing |
| Decks.Deck.DistinctSlots | inc/deck.h:33-34 | in a valid deck every slot holds a real card and no two slots hold the same card |
| Utils.PadString | src/utils.cpp:56-60 | the padded string keeps the input as its prefix, is as wide as the field (never cut below the input's length) and is blank after the input |
| Utils.PadIdempotent | src/utils.cpp:56-60 | padding an already padded key to the same width changes nothing |
| Utils.DecimalString | src/game.cpp:326 | std::to_string of a count is a non-empty string of digits without a leading zero, one digit exactly below 10 |
| Utils.DecimalRoundTrip | src/game.cpp:326 | reading back the digits written for a count gives the count |
| Utils.DecimalInjective | src/game.cpp:326 | different counts are written as different strings |
| Utils.FindFirst | src/utils.cpp:101 | find gives the first position of the character, -1 exactly when it does not occur |
| Utils.StoreCardCombinationKey | src/utils.cpp:100-107 | a key without '-' leaves the list unchanged; otherwise its part before the first '-' is appended unless already present, so the list keeps having no repeats and gains exactly that prefix |
| Players.OrdinalInjective | inc/player.h:26-32 | the five player states have five different enum values |
| Players.FindLast | inc/player.h:118 | find_last_of gives the position of the last occurrence (a real occurrence, none after it) or -1 when there is none |
| Players.Player.LastAction | inc/player.h:114 | the last action is a character of the history |
| Players.Player.NewAction | inc/player.h:109-112 | the action becomes the history's last character, appended after a '-' and otherwise replacing the round's action; the earlier history, the round count and every other field stay as they were |
| Players.Player.ResetAction | inc/player.h:115 | reset_action appends one '-' (one more round) and changes nothing else |
| Players.Player.ResetCounters | inc/player.h:65 | the raise counter becomes 0 and nothing else changes |
| Players.Player.IncreaseRaiseCounter | inc/player.h:66 | the raise counter grows by one and nothing else changes |
| Players.Player.DrawCard | inc/player.h:69 | the card lands in the next free slot, the slot index moves on, the other slots and fields are unchanged |
| Players.Player.HistoryWithoutCurrentRound | inc/player.h:117-119 | the result is the prefix of the history up to its last '-', empty exactly when the history has no '-', with no '-' after it |
| Players.Player.CountCardsLike | inc/player.h:85-91 | the count is the number of hole cards of the same rank as the given card, between 0 and 2 |
| Players.Player.CountCardsOfValue | inc/player.h:93-99 | the count is the number of hole cards with the given value character, between 0 and 2 |
| Players.Player.CountCardsOfFace | inc/player.h:101-107 | the count is the number of hole cards with that value and suit, never more than those with that value |
| Players.NewPlayer | inc/player.h:37-44 | a new seat has no action, no contribution, no raises, no cards and history "-" |
| Players.SeatedPlayer | inc/player.h:46-53 | a seat built with a state and a blind differs from a new one only in those two fields |
| Players.NewActionKeepsShape | inc/player.h:109-112 | after any action the history still starts with '-' and holds at most one action per round |
| Players.ResetActionKeepsShape | inc/player.h:115 | reset_action keeps that history shape |
| Players.PastRoundsEndAt | inc/player.h:117-119 | the history without the current round ends exactly at the last '-' |
| Players.NewActionKeepsPastRounds | inc/player.h:109-119 | an action in the current round never changes the history without the current round |
| Players.ResetActionClosesRound | inc/player.h:115-119 | right after reset_action the whole history belongs to past rounds |
| Betting.AddToPot | src/game.cpp:151 | adding to the uint16_t pot gives a value in 0..65535 |
| Betting.AddNothing | src/game.cpp:151 | adding nothing leaves a pot in range unchanged |
| Betting.ContributionsUpdate | src/game.cpp:150-163 | replacing one seat changes the total contribution by that seat's change |
| Betting.MaxContribution | src/game.cpp:285-293 | the largest contribution bounds every seat's and is some seat's, or 0 |
| Betting.FindMaxPotContribution | src/game.cpp:285-293 | the loop returns the largest contribution cut to a byte |
| Betting.IsRoundEnd | src/game.cpp:295-305 | the round is over exactly when no seat is to call and every seat has acted |
| Betting.CountRemainingPlayers | src/game.cpp:393-401 | the loop counts the seats that are in or have not acted |
| Betting.RemainingPositive | src/game.cpp:393-401 | a seat still in the betting makes the count at least one |
| Betting.NotOutTwo | src/game.cpp:268-273 | two seats that have not folded count at least twice |
| Betting.NotOutOfTwo | src/game.cpp:268-273 | at a two-seat table the not-folded count is one per seat that has not folded |
| Betting.OnlySeatLeft | src/game.cpp:268-281 | when one seat has not folded, every other seat has |
| Betting.CheckPrematureEnd | src/game.cpp:268-283 | the hand ends exactly when one seat has not folded and some seat is in; that seat is the winner and every other has folded |
| Betting.ResetPlayerStates | src/game.cpp:234-242 | every seat that is in goes back to no action, has its raise counter cleared and opens a new round in its history |
| Betting.AlertSeats | src/game.cpp:164-168 | the raise loop puts every seat that is in or has not acted to having to call |
| Betting.AlertAll | src/game.cpp:164-168 | the seats after the raise loop are each seat alerted |
| Betting.CallValueIs | src/game.cpp:150 | while the largest contribution fits a byte, a call adds exactly the difference to it |
| Betting.AfterAction | src/game.cpp:130-174 | an action keeps the number of seats |
| Betting.Act | src/game.cpp:130-174 | take_action's seat update leaves the seats as the action specifies, grows the uint16_t pot by what the seat adds, and reports a fold exactly when a seat facing a raise passes |
| Betting.RaiseDelta | src/game.cpp:160-163 | the raise branch adds the call and the raise to the pot |
| Betting.RaisedActor | src/game.cpp:164-173 | the raising seat, once the raise loop has run over it, ends as the action specifies |
| Betting.CheckOrFoldSeat | src/game.cpp:136-145 | the pass branch updates the seats as specified and folds exactly when the seat had a raise to answer |
| Betting.CallSeat | src/game.cpp:148-157 | the call branch updates the seats and the pot as specified |
| Betting.RaiseSeat | src/game.cpp:159-174 | the raise branch updates the seats and the pot as specified |
| Betting.ActionPot | src/game.cpp:150-163 | the seats' contributions grow by exactly what the action adds to the pot |
| Betting.AlertKeepsContributions | src/game.cpp:164-168 | the raise loop changes no contribution |
| Betting.CheckOrFold | src/game.cpp:136-145 | a pass folds a seat facing a raise and otherwise checks it in; 'p' is its action, it adds nothing, and its cards and earlier rounds stay |
| Betting.CallMatches | src/game.cpp:148-157 | a call brings the seat's contribution up to the largest, keeps it in, and records 'c', or 'C' after its own raise was reraised |
| Betting.RaiseTops | src/game.cpp:159-174 | a raise puts multiplier big blinds on top of the largest contribution, keeps the seat in, counts one more raise, and records 'r', or 'R' after a bet or call by the previous seat |
| Betting.ActionOnOthers | src/game.cpp:130-174 | a pass or call leaves the other seats as they were; a raise makes those in or yet to act answer it and changes nothing else |
| Betting.ActionShape | src/game.cpp:130-174 | every seat keeps its history shape through an action |
| Betting.ActionKeepsCards | src/game.cpp:130-174 | every seat keeps its cards and its rank through an action |
| Betting.ActionContested | src/game.cpp:130-174 | every action keeps the hand contested: nobody all in, someone not folded, and a seat with a raise to answer has an opponent in the betting |
| Betting.RoundOverHasIn | src/game.cpp:295-305 | at the end of a round of a contested hand some seat is in |
| Betting.ResetAll | src/game.cpp:234-242 | the seats after the reset loop are each seat reset |
| Betting.ResetContested | src/game.cpp:234-242 | after a finished round the reset keeps the hand contested and the contributions, clears every raise counter and opens a new round in every history, with nobody left to call |
| Betting.ResetKeepsContributions | src/game.cpp:234-242 | the reset changes no contribution |
| Betting.TwoSeats | src/game.cpp:62-83 | with two seats the total is both contributions, and two seats none all in with one in the betting are contested |
| Betting.BlindsPot | src/game.cpp:83 | the pot after the blinds is their sum as a uint16_t |
| Betting.PotStep | src/game.cpp:151-162 | the pot stays what the seats put in, as a uint16_t |
| Betting.Survivor | src/game.cpp:274-280 | the survivor of a fold is a seat that is in |
| Betting.FoldLeavesSurvivor | src/game.cpp:136-145 | a fold that ends the hand leaves the survivor in and every other seat folded |
| Betting.ContestedHasActive | src/game.cpp:116-128 | a contested hand has a seat that can act, so the search of next_player ends |
| Betting.After | src/game.cpp:121-124 | stepping round the table stays within the seats |
| Betting.NextActive | src/game.cpp:121-126 | the loop finds the first seat after the current one, going round the table, that has neither folded nor gone all in |
| Betting.ResetOpensRound | src/game.cpp:234-242 | after a finished round the reset leaves no seat to call, every raise counter 0 and every seat's last action the round marker |
| Betting.ResetStillContested | src/game.cpp:234-242 | the reset of a finished round of a contested hand keeps it contested |
| Ranks.Ordinal | inc/rank.h:29-40 | the nine categories take the enum values 1 (straight flush) to 9 (high card) |
| Ranks.OrderConsistent | inc/rank.h:50-55 | the six rank operators form one total preorder in which a smaller table value is the better hand: > is the converse of <, <= and >= add equality, and > is transitive |
| Ranks.DefaultIsWorst | inc/rank.h:45 | every evaluated hand (value 1..7462) beats the default rank 0xFFFF |
| Ranks.CategoryMonotone | src/rank.cpp:296-306 | a better (smaller) value never falls in a worse category |
| Ranks.BoolToStr | inc/rank.h:65 | the flag character is 't' exactly for true, 'f' otherwise |
| Ranks.BinChar | src/rank.cpp:333-341 | a value character is binned to 'l', 'L' or kept |
| Ranks.BinAgree | src/rank.cpp:323-341 | both bin_card overloads bin every card of the deck alike: 'l' for deuce to five, 'L' for six to eight, the value character above |
| Ranks.CompareStrict | src/rank.cpp:575-593 | compare_cards is irreflexive, asymmetric and transitive |
| Ranks.CompareFollowsRank | src/rank.cpp:575-593 | on the value characters other than 'T', compare_cards orders cards by rank |
| Ranks.TenAboveAce | src/rank.cpp:575-593 | 'T' keeps its ASCII code and so compares above every other value character, the ace included |
| Ranks.CountPlayerCards | src/rank.cpp:531-537 | the count is the number of hole cards with the given value character, 0..2 |
| Ranks.CountPlayerCardsSuited | src/rank.cpp:539-552 | a negative suit counts nothing; otherwise the count is of hole cards with that value in suit index suit - 1, never more than count_player_cards |
| Ranks.RankChars | src/rank.cpp:558 | `char(*c)` keys a card by its rank index 0..12 |
| Ranks.PairScanSound | src/rank.cpp:554-573 | the scan returns 'x' or a key other than the poker key that it has seen and will see again |
| Ranks.NonPokerPairSound | src/rank.cpp:554-573 | the intended finder returns 'x' or a board value other than the poker card's that lies on the board at least twice |
| Ranks.SecondOccurrence | src/rank.cpp:554-573 | once the first non-poker key is held, any result is that key seen again or a later key seen twice |
| Ranks.FindNonPokerPair | src/rank.cpp:554-573 | the loop with its early returns computes the intended finder on the board's value characters |
| Ranks.FindNonPokerPairCounterexample | src/rank.cpp:554-573 | on the board K K 5 5 with the kings as poker cards the code as written returns the kings' rank index 11 where the pair of fives is meant |
| Ranks.AsWrittenNeverAValue | src/rank.cpp:554-573 | as written, the finder returns 'x' or a control character 0..12, never a value character |
| Ranks.AsWrittenPairBelowValues | src/rank.cpp:499-506 | when the finder as written reports a pair, every value character compares above it, so the kicker flag it feeds is 't' |
| Ranks.NonflushIgnoresTail | src/rank.cpp:308-322 | once the counts seen cover the k cards, the counts of later ranks play no part in the hash |
| Ranks.HashNonflush | src/rank.cpp:308-322 | the loop computes the dp walk over the per-rank counts that stops once k cards are covered |
| Ranks.CategoryPrefix | src/rank.cpp:353-523 | each category's descriptor starts with a three-character prefix ending in '.' |
| Ranks.PrefixDeterminesCategory | src/rank.cpp:353-523 | different categories get different prefixes, so the descriptor names its category |
| Ranks.Describe | src/rank.cpp:343-529 | the descriptor starts with the prefix of the value's category and, for the categories with draw flags, ends with '.' and the four flags |
| Ranks.Representation | src/rank.cpp:343-529 | whatever the board-pair finder reports, the descriptor starts with its category's prefix and the lower categories end with '.' and the four draw flags |
| Ranks.DescribeAsWritten | src/rank.cpp:488-519 | the descriptor with the finder as written agrees with Describe outside four of a kind and whenever the player holds none of the four |
| Ranks.DescribeCounterexample | src/rank.cpp:488-519 | hole K♣ K♠ with board K♦ K♥ 5♣ 5♦ (combination KKKK5, two board pairs): the code as written gives "PK.2t", the intended finder "PK.2f" |
| Ranks.DescribeHighCard | src/rank.cpp:353-367 | a high-card descriptor has ten characters: the bins of the higher-ranked then the lower-ranked hole card, then the flags |
| Ranks.DescribePairs | src/rank.cpp:369-407 | the pair's bin and the digit of how many of it the player holds, then the first kicker's bin and whether it is held (one pair) or the lower pair's bin and held count (two pairs) |
| Ranks.DescribeTrips | src/rank.cpp:409-437 | the triplet's bin and held count, then 'x' when two are held, else the highest held kicker's bin with 't' for the first kicker or 'f' for the second, or nothing |
| Ranks.DescribeStraightOrFlush | src/rank.cpp:439-473 | the top card's bin and a digit 0, 1 or 2 for how many of the two highest cards are held (in the flush suit for a flush), then the board's flags and its pair count |
| Ranks.DescribeFullHouse | src/rank.cpp:475-486 | the held counts of the triplet and of the pair, the board's pair count, and 't' exactly when the triplet compares above the pair |
| Ranks.BinNotCount | src/rank.cpp:331-339 | a binned character is never a digit 0..8 |
| Ranks.DescribeFourOfAKind | src/rank.cpp:488-519 | the fourth character is '1' or '2' exactly when the player holds some of the four; then the possibly-higher-quads flag from the board pairs and trips, or else the kicker's bin and whether it is held |
| Ranks.DescribeStraightFlush | src/rank.cpp:521-525 | the top card's bin and 't' exactly when the player holds it in the flush suit |
| Evaluator.SuitSumIsHash | src/rank.cpp:26-39 | the suit sum the constructors accumulate is the suits generator's hash of the hand's suits |
| Evaluator.SuitLookup | src/rank.cpp:34-39 | suits[] read at the suit sum of three to seven real cards is the generator's value for the hand's per-suit counts, which add up to the hand's size |
| Evaluator.SuitBinaryIsOr | src/rank.cpp:45-52 | suit_binary[s] is the OR of the value hashes of the cards of suit s |
| Evaluator.SuitBinaryBits | src/rank.cpp:45-54 | the flush index is a 13-bit hash whose bit i is set exactly when a card of rank i has that suit |
| Evaluator.ValueOrIsOrOf | src/rank.cpp:78-85 | OR-ing the cards' value hashes is OR-ing 1 << rank over their ranks |
| Evaluator.ValueOrBits | src/rank.cpp:78-85 | bit i of possible_straight_hash is set exactly when some card has rank i |
| Evaluator.ValueOrHash | src/rank.cpp:78-85 | the OR of real cards' value hashes is an index into straights[] (below 8192) |
| Evaluator.ListedRanks | src/rank.cpp:81-85 | the ranks a hash lists are exactly the ranks whose bits are set |
| Evaluator.StraightLookup | src/rank.cpp:81-85 | straights[] at a rank hash is the generator's verdict for the sorted ranks it lists |
| Evaluator.RankCountsOf | src/rank.cpp:73-102 | count[] holds, for each of the thirteen ranks, how many cards have it |
| Evaluator.CountsTotal | src/rank.cpp:88-102 | the per-rank counts of real cards add up to the number of cards |
| Evaluator.ValidDistinctFaces | src/card.cpp:26-31 | different cards of the deck differ in rank or in suit |
| Evaluator.RankCountIsSuitCount | src/card.cpp:26-31 | among cards of distinct faces, those of one rank have as many suits as cards |
| Evaluator.AtMostFourOfARank | src/rank.cpp:88-102 | different real cards hold at most four of a rank, so no count reaches five |
| Evaluator.HandFacts | src/rank.cpp:20-108 | every table index the constructors compute for a dealt hand is within its table |
| Evaluator.RankOf | src/rank.cpp:20-294 | the rank built for two hole cards and a board of three to five records those cards |
| Evaluator.SuitEntryMeaning | src/rank.cpp:34-61 | a suits entry is positive exactly when five cards share a suit (and then names it), -1 exactly when the longest suit has four, -2 exactly when it has three |
| Evaluator.PossibleFlushMeaning | src/rank.cpp:39-61 | m_possible_flush is 'F' exactly when five of the hand share a suit (m_suit then names it and m_is_flush is 's'), '1' when four do and cards are to come, '2' when three do on the flop |
| Evaluator.BoardFlushMeaning | src/rank.cpp:63-71 | m_board_flush is 'F', '1', '2' or 'x' exactly when the board's longest suit has five or more, four, three, or at most two cards |
| Evaluator.StraightMeaning | src/rank.cpp:78-85 | m_board_straight is the straights verdict for the board's ranks, m_possible_straight that for the whole hand, or 'x' once the river is out |
| Evaluator.BoardPairsMeaning | src/rank.cpp:87-98 | the board flags say whether a rank shows four times, whether one shows three times, and how many show twice |
| Evaluator.RanksOfSuitCount | src/rank.cpp:45-52 | the ranks listed for a suit are as many as the cards of that suit |
| Evaluator.SuitCountSwap | src/rank.cpp:26-39 | a suit's card count does not depend on whether board or player cards come first |
| Evaluator.FlushSuitHash | src/rank.cpp:45-54 | a suit holding five or more cards has a rank hash listing those cards' ranks, at least five |
| Evaluator.FlushIndexMeaning | src/rank.cpp:42-54 | with a flush suit, flush[] is read at a hash whose set bits are exactly the ranks of the hand's cards of that suit, at least five of them |
| Evaluator.ValueSource | src/rank.cpp:54-107 | m_value is flush[] when there is a flush suit and that entry is not 0xFFFF, otherwise the noflush table of the hand's size at hash_nonflush of counts that add up to the hand's size |
| Evaluator.AddSuitHashes | src/rank.cpp:30-37 | adding the suit hashes of the cards to the sum of those already seen gives the sum of all of them |
| Evaluator.OrValueHashes | src/rank.cpp:78-84 | OR-ing the value hashes of the cards into the hash of those seen gives the hash of all of them |
| Evaluator.FillSuitBinary | src/rank.cpp:45-52 | the four suit_binary slots end up holding, per suit, the OR of that suit's value hashes |
| Evaluator.Tally | src/rank.cpp:88-102 | incrementing count[] for each card gives the per-rank counts of all cards seen |
| Evaluator.PairsHash | src/rank.cpp:92-94 | the loop computes the pairs generator's hash of the board's per-rank counts |
| Evaluator.SuitValues | src/rank.cpp:26-39 | the two suits lookups are the board's and the whole hand's suit values |
| Evaluator.FlushValueOf | src/rank.cpp:42-54 | the flush branch reads flush[] at the flush suit's rank hash |
| Evaluator.StraightValues | src/rank.cpp:74-85 | the two straights lookups are the board's and the whole hand's verdicts |
| Evaluator.PairValues | src/rank.cpp:73-98 | the board's counts and the pairs lookup at their hash |
| Evaluator.NoflushValueOf | src/rank.cpp:100-107 | the non-flush branch adds the hole cards to the counts and reads the noflush table of the hand's size at hash_nonflush |
| Evaluator.Evaluate | src/rank.cpp:20-294 | the three constructors compute exactly the rank the specification function gives for the hand |
| Evaluator.RankInRange | src/rank.cpp:20-294 | under valid tables an evaluated hand has a rank value 1..7462 and a description |
| FlushTable.Counter.Max | tables/generate_flush_hashtable.py:16 | max(counter) is one of the four counts and no count exceeds it |
| FlushTable.Counter.FirstMax | tables/generate_flush_hashtable.py:17 | the index max(enumerate) picks holds the maximum and every earlier index holds less |
| FlushTable.FlushValue | tables/generate_flush_hashtable.py:16-26 | the value of a counter lies in -3..4 |
| FlushTable.FlushValueMeaning | tables/generate_flush_hashtable.py:11-26 | for at most seven cards the value is the flush suit plus one when a suit has five, the shortfall max - 5 when the longest suit has two to four, and 0 exactly when no suit has two |
| FlushTable.CountsSum | tables/generate_flush_hashtable.py:12-14 | the per-suit counter counts every card once |
| FlushTable.HashIsEncoding | tables/generate_flush_hashtable.py:5-9 | get_hash packs the per-suit counter into octal digits |
| FlushTable.PackUnpack | tables/generate_flush_hashtable.py:3-9 | a counter of at most seven cards packs into the table's 3585 slots and unpacks to itself |
| FlushTable.HashDecodes | tables/generate_flush_hashtable.py:5-9 | the hash of at most seven suits is inside the table and decodes to the hand's counter and size |
| FlushTable.HashValue | tables/generate_flush_hashtable.py:28-32 | the value stored at a hand's hash is find_value of the hand, whatever order the suits come in |
| FlushTable.Entry | tables/generate_flush_hashtable.py:38-42 | an entry lies in -3..4 |
| FlushTable.LookupOfHand | tables/generate_flush_hashtable.py:28-42 | looking up the hash of three to seven suits gives find_value of the hand |
| FlushTable.HashAppend | tables/generate_flush_hashtable.py:5-9 | the hash of two hands put together is the sum of their hashes |
| FlushTable.Store | tables/generate_flush_hashtable.py:29-33 | the leaf writes the value of the hand's hash at that hash and nothing else |
| FlushTable.Recursive | tables/generate_flush_hashtable.py:28-35 | recursive writes, for every extension of the cards to depth suits, the value of its hash, and changes no other entry except to the value of a hash of depth cards |
| FlushTable.Stage | tables/generate_flush_hashtable.py:38-42 | one top-level call fills every hash of depth cards with its value and changes nothing else |
| FlushTable.KeepsFilled | tables/generate_flush_hashtable.py:38-42 | a later call of another depth keeps what an earlier one filled |
| FlushTable.KeepsZero | tables/generate_flush_hashtable.py:3-42 | a call of depth 3 to 7 keeps the other entries 0 |
| FlushTable.Generate | tables/generate_flush_hashtable.py:3-42 | the generated table holds at every hash its entry: the value for hashes of 3 to 7 cards, 0 elsewhere |
| PairTable.CountHash | tables/generate_pair_triplet_hashtable.py:15-16 | count_hash is 0, 1, 8, 64, 512 for counts 0..4 |
| PairTable.HashToCount | tables/generate_pair_triplet_hashtable.py:18-34 | the counters decoded from a hash are its four 3-bit fields when they account for 3 to 7 cards, all zero otherwise |
| PairTable.FindValue | tables/generate_pair_triplet_hashtable.py:36-74 | the value reports at most one quadruplet, two triplets and three pairs |
| PairTable.FindValueMeaning | tables/generate_pair_triplet_hashtable.py:36-74 | for counters of at most seven cards the cascade of cases is exactly (quadruplets, triplets, pairs) |
| PairTable.BoardHashDigits | src/rank.cpp:92-94 | the board hash and card total in terms of how many ranks occur once, twice, three and four times |
| PairTable.BoardLookup | tables/generate_pair_triplet_hashtable.py:18-82 | a board of 3 to 7 cards hashes inside the table and its entry reports (quadruplets, triplets, pairs) |
| PairTable.DecodeCounters | tables/generate_pair_triplet_hashtable.py:18-34 | counters of 3 to 7 cards pack into a hash inside the table that decodes to them |
| PairTable.DecodeFields | tables/generate_pair_triplet_hashtable.py:19-24 | four counters below 8 packed in 3-bit fields unpack to themselves |
| PairTable.InvalidHashIsEmpty | tables/generate_pair_triplet_hashtable.py:29-34 | every hash that does not account for 3 to 7 cards maps to (0, 0, 0) |
| PairTable.LargestValidHash | tables/generate_pair_triplet_hashtable.py:29-31 | 576 is the largest hash below 592 that decodes |
| PairTable.Generate | tables/generate_pair_triplet_hashtable.py:78-85 | the generated table holds the entry of every hash, and max_hash ends at 576 |
| StraightTable.GetHash | tables/generate_straight_hashtable.py:14-18 | the hash of ranks 0..12 is below 8192 and has bit i set exactly when i is one of the ranks |
| StraightTable.HashStep | tables/generate_straight_hashtable.py:16-17 | one step of the loop: OR-ing the first rank's bit into the hash of the rest gives the hash of all ranks |
| StraightTable.CardsFrom | tables/generate_straight_hashtable.py:137-140 | the generator's decoding lists, in strictly increasing order, exactly the ranks from i to 12 whose bits are set |
| StraightTable.SortedUnique | tables/generate_straight_hashtable.py:68 | two strictly increasing lists with the same elements are equal, so sorted(set(cards)) is unique |
| StraightTable.HashRoundTrip | tables/generate_straight_hashtable.py:14-18 | decoding the hash of a sorted list of distinct ranks gives the list back |
| StraightTable.HighBitsIgnored | tables/generate_straight_hashtable.py:138-140 | bits 13 and above play no part in the decoded ranks |
| StraightTable.Check3 | tables/generate_straight_hashtable.py:20-32 | check_3 answers 'M', 'A', 'B' or 'x' |
| StraightTable.Check4 | tables/generate_straight_hashtable.py:35-51 | check_4 answers 'm', 'b' or 'x' |
| StraightTable.Check5 | tables/generate_straight_hashtable.py:54-64 | check_5 answers 'S' or 'x' |
| StraightTable.FindValue | tables/generate_straight_hashtable.py:67-133 | find_value answers one of the seven verdicts |
| StraightTable.ScanStep | tables/generate_straight_hashtable.py:81-131 | a window scan is the first verdict other than 'x' from the highest window down |
| StraightTable.FindValueIsWindowed | tables/generate_straight_hashtable.py:67-133 | the generator's length-by-length cascade equals the uniform search of five-, then four-, then three-card windows from the highest down |
| StraightTable.Spread | tables/generate_straight_hashtable.py:68 | in a sorted list of distinct ranks the values step by at least one per index |
| StraightTable.Check5Sound | tables/generate_straight_hashtable.py:54-64 | a five-card window check_5 calls a straight holds five in a row or the wheel |
| StraightTable.ScanFiveSound | tables/generate_straight_hashtable.py:101-121 | a five-card window scan answers 'S' only when some window is a straight |
| StraightTable.ScanFiveFinds | tables/generate_straight_hashtable.py:101-121 | a five-card window scan answers 'S' once any window at or below its start is a straight |
| StraightTable.NarrowScanNotStraight | tables/generate_straight_hashtable.py:20-51 | three- and four-card scans never answer 'S' |
| StraightTable.StraightVerdictSound | tables/generate_straight_hashtable.py:67-133 | 'S' in the table means the ranks hold a straight |
| StraightTable.RunIsWindow | tables/generate_straight_hashtable.py:67-133 | five ranks in a row sit in five consecutive slots of the sorted list |
| StraightTable.RunGivesStraightVerdict | tables/generate_straight_hashtable.py:86-121 | five ranks in a row among five to seven ranks always get 'S' |
| StraightTable.WheelBehindGap | tables/generate_straight_hashtable.py:60 | the wheel is recognised only when no rank lies between the five and the ace: 2 3 4 5 7 A holds ace-to-five but gets 'm' |
| StraightTable.Entry | tables/generate_straight_hashtable.py:135-144 | every entry is one of the seven verdicts |
| StraightTable.LookupOfHand | tables/generate_straight_hashtable.py:135-144 | the entry at the hash of any ranks is the verdict for their distinct ranks, sorted |
| StraightTable.Generate | tables/generate_straight_hashtable.py:135-144 | the generated table holds the entry of every hash |
| Holdem.RoundOf | inc/game.h:28-34 | the round built from an ordinal has that ordinal |
| Holdem.RoundSequence | src/game.cpp:244-249 | the rounds go preflop, flop, turn, reveal and stay at the reveal; no round is followed by RIVER or by the preflop |
| Holdem.PreflopString | src/game.cpp:207-218 | the preflop string holds the two value characters, the higher card's first, then 's' exactly when the suits match and 'o' otherwise |
| Holdem.PreflopSymmetric | src/game.cpp:207-218 | the preflop string does not depend on the order in which the hole cards were dealt |
| Holdem.PreflopRank | src/game.cpp:207-218 | the preflop branch builds exactly the preflop string |
| Holdem.SeatEvaluated | src/game.cpp:219-229 | a seat ranked with a board of three to five cards holds the evaluated rank of its hand, a value 1..7462, and its description |
| Holdem.RankedSeat | src/game.cpp:206-231 | update_ranks changes only a seat's rank and rank string |
| Holdem.DealtHand | src/game.cpp:72-89 | cards drawn from different slots of a shuffled deck form a hand: real cards, all different |
| Holdem.ShownSlice | src/game.cpp:85-89 | the board of every round past the preflop is a slice of the deck after the hole cards |
| Holdem.DealtHands | src/game.cpp:72-89 | every dealt seat forms a hand with the board of any round |
| Holdem.PreflopDealt | src/game.cpp:62-82 | ranking the dealt seats preflop gives each its preflop string |
| Holdem.DealSeated | src/game.cpp:62-75 | the deal seats two shaped seats holding the first four cards of the deck and leaves the next five for the board |
| Holdem.DealBetting | src/game.cpp:62-83 | the deal's contributions are the two blinds, the pot is their sum as a uint16_t, and the hand is contested |
| Holdem.DealRanked | src/game.cpp:82 | after the deal every seat carries Rank() and the preflop string of its cards |
| Holdem.DealInPlay | src/game.cpp:59-90 | the deal puts a hand in play with the blinds in the pot and the seats ranked preflop |
| Holdem.BestValue | src/game.cpp:307-324 | the best value is at most Rank()'s 0xFFFF, no worse than any seat that is in, and some such seat's value unless it is 0xFFFF |
| Holdem.SeatsWith | src/game.cpp:307-324 | the seats listed are exactly those in with the given value, in increasing seat order |
| Holdem.WinnersAreBest | src/game.cpp:307-324 | with a real rank in play there is a winner; every winner is in and ranks at least as well as every seat in, and every seat in ranking as well as a winner is a winner |
| Holdem.ActionKeepsBetting | src/game.cpp:130-174 | an action keeps the seat shapes and the contest and grows the pot by what the seat adds |
| Holdem.ActionKeepsDeal | src/game.cpp:130-174 | an action changes no seat's cards |
| Holdem.ActionKeepsPlay | src/game.cpp:130-174 | an action keeps a hand in play, with the pot grown by what the seat adds |
| Holdem.ActionKeepsRanks | src/game.cpp:130-174 | an action keeps every seat's rank and rank string |
| Betting.SameStates | src/game.cpp:295-305 | seats in the same states agree on whether the hand is contested and whether the round is over |
| Betting.SameContributions | src/game.cpp:150-163 | seats with the same contributions put the same amount in the pot |
| Holdem.ResetKeepsBetting | src/game.cpp:234-242 | the reset keeps the pot equal to the contributions and the hand contested |
| Holdem.ResetKeepsDeal | src/game.cpp:234-242 | the reset keeps every seat's cards |
| Holdem.ResetKeepsPlay | src/game.cpp:234-242 | seats in play stay in play through the reset, whatever their ranks |
| Holdem.RankAll | src/game.cpp:204-232 | update_ranks ranks every seat with the shown board |
| Holdem.NextRoundSeats | src/game.cpp:185-187 | a new round ranks every seat with its board and then resets it |
| Holdem.UpdateRanks | src/game.cpp:204-232 | the loop leaves every seat ranked with the board of the round |
| Holdem.RankSeat | src/game.cpp:206-231 | the loop body ranks one seat with the board of the round |
| Holdem.FindWinner | src/game.cpp:307-324 | the loop returns every seat that is in with the best rank, in seat order |
| Holdem.RoundEndKeepsPlay | src/game.cpp:180-188 | ending a round keeps the hand in play with the new board: every seat forms a hand with it, and the deal, the pot and the contest are kept |
| Holdem.RoundEndKeepsDeal | src/game.cpp:180-188 | ending a round keeps the seats shaped and holding the deal's cards |
| Holdem.NextRoundRanked | src/game.cpp:185-187 | after a new round every seat carries the rank of the new board |
| Holdem.TakenKeepsPlay | src/game.cpp:130-190 | take_action keeps a hand in play: the pot holds what the seats put in, as a uint16_t; the deal, the contest and the board are kept, also across the end of a round |
| Holdem.EarlyWinner | src/game.cpp:136-145 | an early end names exactly one winner, a seat that is in, with every other seat folded |
| Holdem.ShowdownWinners | src/game.cpp:180-183 | the reveal of a contested hand names at least one winner, each in and ranking at least as well as every seat in |
| Holdem.TakenRanked | src/game.cpp:130-190 | take_action keeps every seat ranked with the board shown in the current round |
| Holdem.Truncate | src/game.cpp:108-109 | a float converted to int is truncated toward zero |
| Holdem.EvenShare | src/game.cpp:108-109 | when the winners divide the pot evenly, each share less the contribution is exact |
| Holdem.Holdem.ShownRanks | src/game.cpp:219-229 | past the preflop every seat holds the evaluated rank of its cards with the shown board, a value 1..7462, and its description |
| Holdem.Holdem.RevealHasWinner | src/game.cpp:180-183 | at the reveal of a contested hand find_winner names at least one seat |
| Holdem.Holdem.constructor | src/game.cpp:29-38 | the new game has the given blinds and reraise limit, the six actions, a fresh deck, new seats, an empty history and no winner |
| Holdem.Holdem.StartGame | src/game.cpp:59-90 | start_game shuffles, seats the blinds with two cards each, ranks preflop, puts the blinds in the pot and deals flop, turn and river from the next deck slots, leaving a running hand in play with seat 0 to act |
| Holdem.Holdem.SeatAndRank | src/game.cpp:62-82 | the seats are dealt from the first four deck slots with their blinds and ranked preflop |
| Holdem.Holdem.HandDealt | src/game.cpp:59-90 | the state start_game leaves is a hand in play, ranked preflop, with the blinds in the pot |
| Holdem.Holdem.ResetTable | src/game.cpp:77-80 | seat 0 to act, the preflop, no winner yet |
| Holdem.Holdem.SeatPlayers | src/game.cpp:62-75 | each seat gets its blind and state, then two cards from the deck |
| Holdem.Holdem.DealBoard | src/game.cpp:85-89 | the flop, the turn and the river are the next five cards of the deck |
| Holdem.Holdem.TakeAction | src/game.cpp:130-190 | take_action moves the game exactly as the specification of an action and a round end says, and keeps the hand in play |
| Holdem.Holdem.ApplyAction | src/game.cpp:130-178 | the seat update, the pot, the early-end check and the history push, reporting an early end exactly when it happens |
| Holdem.Holdem.Record | src/game.cpp:175 | the action tag is appended to the shared history |
| Holdem.Holdem.SeatAction | src/game.cpp:130-174 | the seats and the pot change as the action specifies, and a fold is reported exactly when a seat facing a raise passes |
| Holdem.Holdem.PrematureEnd | src/game.cpp:268-283 | the hand ends exactly when one seat has not folded and it is in, which then is the only winner; otherwise the winner is unchanged |
| Holdem.Holdem.EndRound | src/game.cpp:180-189 | the end-of-round step moves the game as specified |
| Holdem.Holdem.Advance | src/game.cpp:244-249 | the round moves to the next and is never the preflop afterwards |
| Holdem.Holdem.Showdown | src/game.cpp:182-183 | the winners are every seat in with the best rank |
| Holdem.Holdem.NewRound | src/game.cpp:185-187 | the history becomes the count of seats in the betting, and the seats are ranked with the new board and reset |
| Holdem.Holdem.NextPlayer | src/game.cpp:116-128 | seat 0 on an empty history, otherwise the first seat after the current one that has neither folded nor gone all in; nothing else changes |
| Holdem.Holdem.GetReward | src/game.cpp:94-114 | an error while the hand runs; a loser loses its contribution, a sole winner wins the pot less its contribution, and tied winners share the pot |
| Holdem.Holdem.RewardsZeroSum | src/game.cpp:94-103 | with one winner and a pot that did not wrap, the two seats' rewards cancel out |
| Holdem.Holdem.TieZeroSum | src/game.cpp:104-109 | when both seats tie for an even pot that did not wrap, their rewards cancel out |
| Holdem.Holdem.CanCall | src/game.cpp:192-194 | a call is allowed exactly when the seat has a raise to answer (is TO_CALL), and then the betting round is not over |
| Holdem.Holdem.CanRaise | src/game.cpp:196-202 | a raise is allowed exactly when the seat is below the reraise limit and, when the shared history ends with an uppercase raise, the new raise does not undercut it ('x', no restriction, when the history is empty) |
| Holdem.Holdem.Allowed | src/game.cpp:344-356 | the pass is always allowed, a call exactly when can_call holds and a raise exactly when can_raise holds |
| Holdem.Holdem.AllowedActions | src/game.cpp:344-356 | the actions kept are exactly those of the list the seat may take |
| Holdem.Holdem.GetValidActionsMask | src/game.cpp:328-341 | the mask is 1 exactly for the actions the seat may take and 0 for the others, and the pass is always allowed |
| Holdem.Holdem.GetValidActions | src/game.cpp:344-356 | the valid actions are those the seat may take, in list order, the pass always among them |
| Holdem.Holdem.CreateKey | src/game.cpp:384-391 | the key is the seat's rank string, its history without the current round and the shared history, padded to KEY_LENGTH |
| Holdem.Holdem.IsPlayerInGame | inc/game.h:47 | a seat is in the game exactly when it has not folded, and the count check_premature_end takes is one per seat in the game |
| Holdem.Holdem.GetPlayerPotContribution | inc/game.h:48 | the seat's contribution, which with the other seat's makes up the total the pot was paid |
| Holdem.Holdem.SeatRankString | inc/game.h:50 | a seat's rank string is the preflop string before the flop, and later the description of the evaluated rank of its hand with the shown board |
| Holdem.Holdem.GetPlayerCardsStr | inc/game.h:50 | the seat's rank string: the preflop string before the flop, later the description of its evaluated rank for the shown board |
| Leduc.RoundOf | inc/leduc.h:28-32 | the round built from an ordinal has that ordinal |
| Leduc.RoundSequence | src/leduc.cpp:233-238 | the rounds go preflop, flop, reveal and stay at the reveal; no round is followed by the preflop |
| Leduc.NewDeck | src/leduc.cpp:38 | the deck the constructor builds holds cards 45, 44, 41, 40, 37 and 36, six real cards |
| Leduc.NewDeckFaces | src/leduc.cpp:38 | the six cards are the king, the queen and the jack, each of diamonds and of clubs, all different |
| Leduc.NewDeckCards | src/leduc.cpp:38 | the constructor's deck is a Leduc deck: six different kings, queens and jacks of diamonds or clubs |
| Leduc.PermutedDeck | src/leduc.cpp:59-64 | any permutation of a Leduc deck, such as a shuffle leaves, is still a Leduc deck |
| Leduc.SameFace | src/leduc.cpp:38 | two real cards with the same rank and suit are the same card |
| Leduc.NoThreeOfAKind | src/leduc.cpp:38 | three different cards of a Leduc deck never share a rank |
| Leduc.RankRanges | src/leduc.cpp:192-218 | the ranks fit the int8_t they are stored in: 2..14 preflop, 102..114 for a pair, 55..77 suited, 5..27 offsuit; the Leduc deck gives 11..13 preflop |
| Leduc.RankOrder | src/leduc.cpp:197-218 | after the flop a pair beats a suited hand, which beats an offsuit hand, and within a category the higher hole card ranks higher |
| Leduc.RankStringDeterminesRank | src/leduc.cpp:192-218 | two real cards whose rank strings agree in a round have the same rank in it |
| Leduc.NoTies | src/leduc.cpp:197-218 | two different hole cards of the Leduc deck with a third as the flop never rank alike |
| Leduc.RankSeat | src/leduc.cpp:191-218 | one seat's rank string and rank: its card preflop, then a pair with the flop, suited or offsuit |
| Leduc.RankAll | src/leduc.cpp:189-221 | update_ranks ranks each seat in order, and only that |
| Leduc.RanksOf | src/leduc.cpp:189-221 | m_ranks holds, seat by seat, the rank of the seat's card in the round |
| Leduc.RankAllKeeps | src/leduc.cpp:189-221 | ranking changes only the rank strings: states, contributions and cards are kept |
| Leduc.UpdateRanks | src/leduc.cpp:189-221 | the loop ranks every seat and fills m_ranks for the round |
| Leduc.BestRank | src/leduc.cpp:292-305 | the best rank is at least 0, no worse than any seat that is in, and some such seat's rank unless it is 0 |
| Leduc.Winner | src/leduc.cpp:292-305 | seat 0 when no seat that is in ranks above 0; otherwise the first seat that is in with the best rank, every earlier seat in ranking strictly lower |
| Leduc.FindWinner | src/leduc.cpp:292-305 | the loop returns the winner of the specification |
| Leduc.PreflopDealt | src/leduc.cpp:69-82 | ranking the dealt seats preflop gives each its card string and its card's value |
| Leduc.DealInPlay | src/leduc.cpp:66-86 | the deal puts a hand in play: two seats holding the first two deck cards, the third as the flop, both blinds in the pot, every seat ranked preflop |
| Leduc.ActionKeepsPlay | src/leduc.cpp:115-159 | an action keeps a hand in play, with the pot grown by what the seat adds |
| Leduc.RoundEndKeepsPlay | src/leduc.cpp:165-173 | ranking and resetting the seats at the end of a round keeps a hand in play |
| Leduc.RoundEndKeepsBets | src/leduc.cpp:165-173 | ranking and resetting the seats keeps the contributions and the contest |
| Leduc.TakenKeepsPlay | src/leduc.cpp:115-175 | take_action keeps a hand in play: the pot holds what the seats put in, as a uint16_t, and the deal and the contest are kept, also across the end of a round |
| Leduc.TakenRanked | src/leduc.cpp:115-175 | take_action keeps every seat ranked for the round the game is in |
| Leduc.ActionKeepsRanks | src/leduc.cpp:115-159 | an action keeps every seat's card, rank and rank string |
| Leduc.RevealKeepsRanks | src/leduc.cpp:165-168 | the reveal shows the ranks of the flop |
| Leduc.NextRoundRanked | src/leduc.cpp:169-172 | ranking and resetting the seats for a round shows the ranks of that round |
| Leduc.EarlyWinner | src/leduc.cpp:253-268 | an early end leaves one winner, the seat that is in, every other seat having folded |
| Leduc.ShowdownWinner | src/leduc.cpp:165-168 | the reveal of a hand dealt from the Leduc deck names the seat that is in with a strictly better rank than every other such seat |
| Leduc.CallClosesPreflop | src/leduc.cpp:133-173 | preflop, a call by seat 0 ends the round: the game moves to the flop with both seats yet to act and the history "2" |
| Leduc.TwoRemain | src/leduc.cpp:357-365 | two seats in the betting count two |
| Leduc.FoldGivesBigBlind | src/leduc.cpp:121-127 | preflop, a fold by seat 0 ends the hand and seat 1, in with the big blind, wins |
| Leduc.SmallPot | src/leduc.cpp:83 | a total below 0x10000 is stored in the uint16_t pot unchanged |
| Leduc.RankedResetShaped | src/leduc.cpp:169-172 | the seats ranked and reset at the start of the flop keep their card slots and shapes |
| Leduc.Leduc.constructor | src/leduc.cpp:29-39 | the new game has the given blinds and reraise limit, the six cards in their fixed order, nothing drawn, new seats and no winner |
| Leduc.Leduc.ShuffleCards | src/leduc.cpp:59-64 | the cursor goes back to the first card and the deck is permuted |
| Leduc.Leduc.DrawCard | inc/leduc.h:62 | the card under the cursor is drawn and the cursor moves on |
| Leduc.Leduc.StartGame | src/leduc.cpp:66-86 | start_game permutes the deck, seats the blinds with one card each, ranks preflop, puts both blinds in the pot and draws the flop card, leaving a running hand in play with seat 0 to act |
| Leduc.Leduc.SeatAndRank | src/leduc.cpp:69-82 | the seats are dealt from the first two deck slots with their blinds and ranked preflop |
| Leduc.Leduc.BlindsAndFlop | src/leduc.cpp:83-85 | the blinds make the pot and the next deck card is the flop |
| Leduc.Leduc.SeatPlayers | src/leduc.cpp:69-75 | each seat gets its blind and state, then one card from the deck |
| Leduc.Leduc.ResetTable | src/leduc.cpp:77-80 | seat 0 to act, the preflop, no winner yet |
| Leduc.Leduc.HandDealt | src/leduc.cpp:66-86 | the state start_game leaves is a hand in play, ranked preflop, with the blinds in the pot |
| Leduc.Leduc.TakeAction | src/leduc.cpp:115-175 | take_action moves the game as the specification of an action and a round end says, keeps a hand in play, its bets and its ranks |
| Leduc.Leduc.ApplyAction | src/leduc.cpp:115-163 | the seat update, the pot, the early-end check and the history push, reporting an early end exactly when it happens |
| Leduc.Leduc.Record | src/leduc.cpp:160 | the action tag is appended to the shared history |
| Leduc.Leduc.SeatAction | src/leduc.cpp:117-159 | the seats and the pot change as the action specifies, and a fold is reported exactly when a seat facing a raise passes |
| Leduc.Leduc.PrematureEnd | src/leduc.cpp:253-268 | the hand ends exactly when one seat has not folded and a seat is in, which then wins; otherwise the winner is unchanged |
| Leduc.Leduc.EndRound | src/leduc.cpp:165-174 | the end-of-round step moves the game as specified |
| Leduc.Leduc.Advance | src/leduc.cpp:233-238 | the round moves to the next and is never the preflop afterwards |
| Leduc.Leduc.Showdown | src/leduc.cpp:167-168 | the winner is find_winner's seat |
| Leduc.Leduc.NewRound | src/leduc.cpp:169-172 | the history becomes the count of seats in the betting, the seats are ranked with the flop card and reset |
| Leduc.Leduc.NextPlayer | src/leduc.cpp:101-113 | seat 0 on an empty history, otherwise the first seat after the current one that has neither folded nor gone all in |
| Leduc.Leduc.GetReward | src/leduc.cpp:90-99 | an error while the hand runs; the pot less its contribution for the winner, minus its contribution for the other seat |
| Leduc.Leduc.RewardsZeroSum | src/leduc.cpp:90-99 | once a winner is decided and the pot did not wrap, the two seats' rewards cancel out |
| Leduc.Leduc.RevealWinner | src/leduc.cpp:165-168 | at the reveal of a hand in play the winner is in and ranks strictly better than every other seat that is in |
| Leduc.Leduc.CanCall | src/leduc.cpp:177-179 | a call is allowed exactly when the seat has a raise to answer (is TO_CALL), and then the betting round is not over |
| Leduc.Leduc.CanRaise | src/leduc.cpp:181-187 | a raise is allowed exactly when the seat is below the reraise limit and, when the shared history ends with an uppercase raise, the new raise does not undercut it ('x', no restriction, when the history is empty) |
| Leduc.Leduc.Allowed | src/leduc.cpp:325-337 | the pass is always allowed, a call exactly when can_call holds and a raise exactly when can_raise holds |
| Leduc.Leduc.AllowedActions | src/leduc.cpp:325-337 | the actions kept are exactly those of the list the seat may take |
| Leduc.Leduc.GetValidActionsMask | src/leduc.cpp:309-322 | the mask is 1 exactly for the actions the seat may take and 0 for the others, the pass always allowed |
| Leduc.Leduc.GetValidActions | src/leduc.cpp:325-337 | the valid actions are those the seat may take, in list order, the pass always among them |
| Leduc.Leduc.CreateKey | src/leduc.cpp:348-355 | the key is the seat's rank string, its history without the current round and the shared history, padded to KEY_LENGTH |
| Leduc.Leduc.GetPlayerCardsStr | inc/leduc.h:46 | the seat's rank string, that of its card with the board of the current round |
| Nodes.SumDivide | src/node.cpp:51-53 | dividing every entry by c divides the sum by c |
| Nodes.SumAdd | src/node.cpp:58-63 | adding two vectors entry by entry adds their sums |
| Nodes.SumConstant | src/node.cpp:22-26 | n copies of c sum to n times c, so six entries of 1/6 sum to 1 |
| Nodes.SumNonNegative | src/node.cpp:36-44 | non-negative entries have a non-negative sum, positive when some entry is positive |
| Nodes.Weight | src/node.cpp:37-42 | an action's weight is never negative, 0 for a masked action or a regret of 0 or less, and the regret itself for a valid action with a positive regret |
| Nodes.Weights | src/node.cpp:36-44 | the first loop gives every action its weight |
| Nodes.ValidSumPositive | src/node.cpp:43-49 | with some valid action, valid_sum is positive, so the fallback never divides by 0 |
| Nodes.StrategyDistribution | src/node.cpp:31-56 | get_strategy returns a probability distribution: non-negative entries summing to 1, 0 for every masked action |
| Nodes.NormalisedDistribution | src/node.cpp:50-54 | non-negative entries divided by their positive sum are non-negative, 0 where the entry is 0, and sum to 1 |
| Nodes.StrategyMatchesRegrets | src/node.cpp:36-54 | regret matching: with positive total weight each action gets its weight over the total, a regret of 0 or less gets 0, and of two valid actions the one with the greater positive regret gets more |
| Nodes.StrategyFallback | src/node.cpp:46-49 | without positive weight each action gets its mask entry over the mask's sum, so all valid actions of a 0/1 mask are equally likely |
| Nodes.AverageDistribution | src/node.cpp:65-81 | the average strategy sums to 1 in both branches and is a distribution whenever the strategy sums are non-negative |
| Nodes.AddDistribution | src/node.cpp:58-63 | adding a distribution to non-negative strategy sums keeps them non-negative and adds 1 to their total |
| Nodes.Node.constructor | src/node.cpp:21-29 | regrets and strategy sums 0, the strategy 1/6 for each action and summing to 1, both counters 0 |
| Nodes.Node.GetStrategy | src/node.cpp:31-56 | with a valid action the node's strategy is a distribution over the six actions giving masked actions 0 |
| Nodes.Node.UpdateAvgStrategy | src/node.cpp:58-63 | the vector is added entry by entry to the strategy sums, whose total grows by the vector's sum; nothing else changes |
| Nodes.Node.GetAverageStrategy | src/node.cpp:65-81 | the average strategy has six entries summing to 1, non-negative when the strategy sums are |
| Nodes.Node.IncVisits | inc/node.h:55 | the first counter goes up by one |
| Nodes.Node.IncVisits2 | inc/node.h:57 | the second counter goes up by one |
| Nodes.Node.UpdateRegretSum | inc/node.h:60 | f times the mask entry is added to that action's regret and to no other, so a masked action's regret stays as it was |
| Nodes.Node.GetRegrets | inc/node.h:61 | the regret sums, entry by entry |
| Nodes.Node.SetMask | inc/node.h:62 | the mask becomes m, and get_valid_actions then returns m |
| Nodes.Node.GetValidActions | inc/node.h:63 | the mask, entry by entry |
| Nodes.Node.GetVisits | inc/node.h:56 | the visit counter that inc_visits advances |
| Nodes.Node.GetVisits2 | inc/node.h:58 | the second visit counter that inc_visits2 advances |

## Left out

- The lookup tables that the source only declares (`flush`, `noflush5/6/7`, `dp`, `rank_description`) are not modelled by content. They are fields of `Ranks.Tables`, passed in as functions. `Ranks.TablesValid` states what the model assumes of them: ranks 1..7462, a `dp` table of the right shape, a flush entry that is a rank or the "no value" marker, and a cards-in-combination string of at least five characters for every rank. The `suits`, `pairs`/`count_hash` and `straights` tables are defined by the generator models instead.
- The Hold'em game reaches the evaluator through a `Scorer` value (rank and describe functions), which the ghost predicate `Holdem.Scores` ties to `Evaluator.RankOf` and `Ranks.Describe` over the tables. The C++ calls the `Rank` constructors directly.
- Randomness is left out. `std::shuffle` in `Deck::shuffle` and `Leduc::shuffle_cards` becomes a parameter: the swap choices of a Fisher-Yates pass. The contract says only that the deck is permuted. `sample_action` in both games, which draws from a `std::discrete_distribution`, is not part of this model.
- I/O and process-level code is not part of this model: `get_ram_usage`, the model save and load, `save_card_combination_keys`, the training threads and the shared node table, the CFR traversal, the CLI and the state parser.
- The copy constructors of `Holdem` and `Leduc` and the `Card*` aliasing they involve are left out. Seats hold cards as values, and a seat's card slots are value copies of the deck's cards.
- `round_to_str` in both games and the `Node` string operator produce only display text, and they are left out.
- The inline accessors `get_player_cards`, `get_current_player`, `get_round`, `get_flop`, `get_turn`, `get_river` and `get_actions` are left out. Each reads one field, and the model uses that field directly. The other inline accessors (`is_player_in_game`, `get_player_pot_contribution`, `get_player_cards_str`, `get_visits` and `get_visits2`) are modelled as one-line reads with the rows above.
- Floating point is modelled as `real`, without rounding. The strategy vectors sum to exactly 1 in the model; in `float` they do so only approximately.
- Holdem.Truncate: the conversion of the float pot share to `int` is modelled as truncation toward zero of a real. Float rounding of the division is not modelled.
- Holdem.Holdem.GetReward: it requires at least one winner entry, because the source reads `m_winner[0]`. A showdown with nobody IN leaves the vector empty, and that read is then undefined. Holdem.ShowdownWinners proves that a contested hand always names a winner.
- Holdem.Holdem.RewardsZeroSum: stated only while the pot has not wrapped around 2^16. The `uint16_t` pot then equals the sum of the contributions.
- Holdem.Holdem.TieZeroSum: stated only for a tie on an even pot, where the float share is exact.
- Leduc.Leduc.RewardsZeroSum: stated only while the pot has not wrapped around 2^16.
- Holdem.Holdem.NextPlayer: requires a contested hand (a seat that is neither folded nor all in). Otherwise the source's search never ends.
- Leduc.Leduc.NextPlayer: requires a contested hand, for the same reason.
- Nodes.Node.GetStrategy: requires the mask to allow some action. With an all-zero mask the source divides 0 by 0 and returns NaNs.
- Nodes.Node.IncVisits: the `int` counters are unbounded in the model. The overflow of `m_visits` and `m_visits_2` is not modelled.
- The fields the source leaves uninitialised get fixed defaults in the constructors. These are the current seat, the round, the pot, the ranks, the board and the node's mask. No contract depends on those defaults.
- Holdem's RIVER round is never reached by `next_round`. Its ordinal 13 is modelled, and `Holdem.RoundSequence` proves it is unreachable.
- Ranks.Describe: the four-of-a-kind flag (src/rank.cpp:499 and :506) compares the kicker with the intended board pair, not with what `find_non_poker_pair` returns as written. On a board with two pairs and two of the four held, or one pair and one held, the rank string and so the Hold'em information-set key can differ from the program's; `Ranks.DescribeAsWritten` is the program's descriptor.
- The call branch's `uint8_t` largest contribution is modelled with its wrap-around. Betting.CallValueIs states that a call matches the largest contribution exactly only while that contribution is below 256.

## Findings

| source | as written | input that shows it | evidently intended | confidence | as-written member | corrected member |
|---|---|---|---|---|---|---|
| src/rank.cpp:554-573 | `find_non_poker_pair` builds its result with `char(*c)`. That is the card's `int` conversion, the rank index 0..12, read as a character. It is not the card's value character. | Board K K 5 5 with poker card 'K': no rank index equals 'K', so the kings are not skipped. The code returns the character with code 11, the kings' rank index, where '5' is meant. | return the value character of a board pair other than the poker card | not executed | Ranks.FindNonPokerPairCounterexample | Ranks.NonPokerPairSound |
| src/rank.cpp:488-519 | The four-of-a-kind flag compares the kicker `hand[4]` with the finder's result as written. When the scan finds a pair, that result is a rank index read as a control character, and every value character compares above it, so the flag is 't'. | Hole K♣ K♠, board K♦ K♥ 5♣ 5♦ at the turn: combination KKKK5, two pairs on the board. The code compares '5' with the character of code 11 and writes "PK.2t". | "PK.2f": the board's other pair, the fives, cannot make a higher four of a kind | not executed | Ranks.DescribeCounterexample | Ranks.DescribeFourOfAKind |
