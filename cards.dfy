/** Cards and their two-character text form (backend/poker/evaluator.go). */
module Cards {

  /** One byte of a Go string; Go's `len` and indexing work on bytes. */
  type Byte = c: char | c as int < 256 witness 'A'

  /** Suits and ranks are small integers, as in the source (`type Suit int`, `type Rank int`). */
  type Suit = s: int | 0 <= s < 4
  type Rank = r: int | 0 <= r < 13

  const Hearts: Suit := 0
  const Diamonds: Suit := 1
  const Clubs: Suit := 2
  const Spades: Suit := 3

  const Two: Rank := 0
  const Three: Rank := 1
  const Four: Rank := 2
  const Five: Rank := 3
  const Six: Rank := 4
  const Seven: Rank := 5
  const Eight: Rank := 6
  const Nine: Rank := 7
  const Ten: Rank := 8
  const Jack: Rank := 9
  const Queen: Rank := 10
  const King: Rank := 11
  const Ace: Rank := 12

  datatype Card = Card(suit: Suit, rank: Rank)

  /** The letter of each suit and of each rank, indexed by its number. */
  const SuitLetters: seq<Byte> := "HDCS"
  const RankLetters: seq<Byte> := "23456789TJQKA"

  /** The three ways a card string can be rejected, with what the message reports. */
  datatype ParseError =
    | InvalidFormat(text: seq<Byte>)
    | InvalidSuit(letter: Byte)
    | InvalidRank(letter: Byte)

  datatype Result<T> = Ok(value: T) | Err(error: ParseError)

  datatype Option<T> = None | Some(value: T)

  /** ASCII upper-casing of one byte. */
  function Upper(b: Byte): Byte {
    if 'a' <= b <= 'z' then (b as int - 32) as char else b
  }

  function UpperString(s: seq<Byte>): (u: seq<Byte>)
    ensures |u| == |s| && forall i :: 0 <= i < |s| ==> u[i] == Upper(s[i])
  {
    if s == [] then [] else [Upper(s[0])] + UpperString(s[1..])
  }

  function SuitOfLetter(b: Byte): Option<Suit> {
    match b
    case 'H' => Some(Hearts)
    case 'D' => Some(Diamonds)
    case 'C' => Some(Clubs)
    case 'S' => Some(Spades)
    case _ => None
  }

  function RankOfLetter(b: Byte): Option<Rank> {
    match b
    case '2' => Some(Two)
    case '3' => Some(Three)
    case '4' => Some(Four)
    case '5' => Some(Five)
    case '6' => Some(Six)
    case '7' => Some(Seven)
    case '8' => Some(Eight)
    case '9' => Some(Nine)
    case 'T' => Some(Ten)
    case 'J' => Some(Jack)
    case 'Q' => Some(Queen)
    case 'K' => Some(King)
    case 'A' => Some(Ace)
    case _ => None
  }

  lemma SuitOfLetterMeaning(b: Byte)
    ensures SuitOfLetter(b).Some? <==> b in SuitLetters
    ensures SuitOfLetter(b).Some? ==> SuitLetters[SuitOfLetter(b).value] == b
  {
  }

  lemma RankOfLetterMeaning(b: Byte)
    ensures RankOfLetter(b).Some? <==> b in RankLetters
    ensures RankOfLetter(b).Some? ==> RankLetters[RankOfLetter(b).value] == b
  {
  }

  /**
   * Parses a card such as "HA" or "s7": a length check on bytes, then the
   * suit letter, then the rank letter, each after upper-casing.
   */
  function ParseCard(s: seq<Byte>): (r: Result<Card>)
    ensures |s| != 2 ==> r == Err(InvalidFormat(s))
    ensures |s| == 2 && Upper(s[0]) !in SuitLetters ==> r == Err(InvalidSuit(Upper(s[0])))
    ensures |s| == 2 && Upper(s[0]) in SuitLetters && Upper(s[1]) !in RankLetters ==>
              r == Err(InvalidRank(Upper(s[1])))
    ensures |s| == 2 && Upper(s[0]) in SuitLetters && Upper(s[1]) in RankLetters ==>
              r.Ok? && SuitLetters[r.value.suit] == Upper(s[0]) && RankLetters[r.value.rank] == Upper(s[1])
  {
    if |s| != 2 then Err(InvalidFormat(s))
    else
      var u := UpperString(s);
      SuitOfLetterMeaning(u[0]);
      RankOfLetterMeaning(u[1]);
      match SuitOfLetter(u[0])
      case None => Err(InvalidSuit(u[0]))
      case Some(suit) =>
        match RankOfLetter(u[1])
        case None => Err(InvalidRank(u[1]))
        case Some(rank) => Ok(Card(suit, rank))
  }

  /** The canonical upper-case two-letter form of a card. */
  function CardToString(c: Card): (s: seq<Byte>)
    ensures |s| == 2
  {
    [SuitLetters[c.suit], RankLetters[c.rank]]
  }

  /** Serialising a card and parsing it back gives the same card. */
  lemma ParseCardToString(c: Card)
    ensures ParseCard(CardToString(c)) == Ok(c)
  {
    var s := CardToString(c);
    SuitLetterRoundTrip(c.suit);
    RankLetterRoundTrip(c.rank);
    assert UpperString(s) == s;
  }

  /** Each suit letter reads back as its suit, and is already upper case. */
  lemma SuitLetterRoundTrip(suit: Suit)
    ensures SuitOfLetter(SuitLetters[suit]) == Some(suit) && Upper(SuitLetters[suit]) == SuitLetters[suit]
  {
  }

  /** Each rank letter reads back as its rank, and is already upper case. */
  lemma RankLetterRoundTrip(rank: Rank)
    ensures RankOfLetter(RankLetters[rank]) == Some(rank) && Upper(RankLetters[rank]) == RankLetters[rank]
  {
  }

  /** A parsed card prints as the upper-case form of the text it came from. */
  lemma CardToStringOfParse(s: seq<Byte>, c: Card)
    requires ParseCard(s) == Ok(c)
    ensures CardToString(c) == UpperString(s)
  {
  }

  /**
   * Parses a list of card strings, stopping at the first bad one; on success
   * the cards are in the same order as the strings.
   */
  method ParseCards(strs: seq<seq<Byte>>) returns (r: Result<seq<Card>>)
    ensures r.Ok? <==> forall i :: 0 <= i < |strs| ==> ParseCard(strs[i]).Ok?
    ensures r.Ok? ==> |r.value| == |strs| && forall i :: 0 <= i < |strs| ==> ParseCard(strs[i]) == Ok(r.value[i])
    ensures r.Err? ==> exists k :: 0 <= k < |strs| && ParseCard(strs[k]) == Err(r.error)
                                   && forall i :: 0 <= i < k ==> ParseCard(strs[i]).Ok?
  {
    var cards: seq<Card> := [];
    var n := 0;
    while n < |strs|
      invariant 0 <= n <= |strs|
      invariant |cards| == n
      invariant forall i :: 0 <= i < n ==> ParseCard(strs[i]) == Ok(cards[i])
    {
      var card := ParseCard(strs[n]);
      if card.Err? {
        return Err(card.error);
      }
      cards := cards + [card.value];
      n := n + 1;
    }
    return Ok(cards);
  }
}
