/** The challenge scorer `fight`: each side scores its wins plus the sum of
    the code points of its hash; the contender wins only on a strictly
    positive difference. */
module Fight {
  import opened Wrappers
  import opened Sdk
  import opened Strconv

  datatype FightResult = FightResult(
    contestantSum: int,
    contestantHash: string,
    defiantSum: int,
    defiantHash: string,
    winner: string)

  /** The winner labels exactly as `fight` spells them. */
  const ContestorLabel: string := "contestor"
  const DefiantLabel: string := "defiant"

  /** Sum of the code points of `s`. */
  function CodePointSum(s: string): nat {
    if s == [] then 0 else CodePointSum(s[..|s| - 1]) + s[|s| - 1] as int
  }

  /** One side's score. */
  function Score(hash: string, wins: int): int {
    wins + CodePointSum(hash)
  }

  /** Ties and negative differences go to the defiant side. */
  function WinnerLabel(contestantSum: int, defiantSum: int): string {
    if contestantSum - defiantSum > 0 then ContestorLabel else DefiantLabel
  }

  /** The loop of `fight` over one hash: each code point is printed with
      `%d`, parsed back with `Atoi` and added to the running sum. */
  method AddCodePoints(hash: string, start: int) returns (r: Result<int, Error>)
    ensures r == Ok(start + CodePointSum(hash))
  {
    var sum := start;
    for i := 0 to |hash|
      invariant sum == start + CodePointSum(hash[..i])
    {
      var charValue := FormatDecimal(hash[i] as int);
      AtoiFormatDecimal(hash[i] as int);
      match Atoi(charValue)
      case Err(e) =>
        return Err(e);
      case Ok(runeValue) =>
        sum := sum + runeValue;
      assert hash[..i + 1][..i] == hash[..i];
    }
    assert hash[..|hash|] == hash;
    return Ok(sum);
  }

  /** `fight`. It never fails, and its result is determined by its four
      inputs: both scores, both hashes echoed, and the winner label. */
  method Fight(contestantHash: string, contestantWins: int, defiantHash: string, defiantWins: int)
    returns (r: Result<FightResult, Error>)
    ensures r.Ok?
    ensures r.value.contestantSum == Score(contestantHash, contestantWins)
    ensures r.value.defiantSum == Score(defiantHash, defiantWins)
    ensures r.value.contestantHash == contestantHash && r.value.defiantHash == defiantHash
    ensures r.value.winner == ContestorLabel <==> r.value.contestantSum > r.value.defiantSum
    ensures r.value.winner == DefiantLabel <==> r.value.contestantSum <= r.value.defiantSum
  {
    var contestant := AddCodePoints(contestantHash, contestantWins);
    match contestant
    case Err(e) =>
      return Err(e);
    case Ok(contestantSum) =>
      var defiant := AddCodePoints(defiantHash, defiantWins);
      match defiant
      case Err(e) =>
        return Err(e);
      case Ok(defiantSum) =>
        var winner := WinnerLabel(contestantSum, defiantSum);
        r := Ok(FightResult(contestantSum, contestantHash, defiantSum, defiantHash, winner));
  }

  /** The worked example: "61" scores 54 + 49 = 103 and "62" scores
      54 + 50 = 104, so with no wins on either side the defiant side wins. */
  lemma FightExample()
    ensures Score("61", 0) == 103 && Score("62", 0) == 104
    ensures WinnerLabel(Score("61", 0), Score("62", 0)) == DefiantLabel
  {
    assert "61"[..1] == "6" && "62"[..1] == "6" && "6"[..0] == "";
  }
}
