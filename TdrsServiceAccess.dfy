/** What the TDRS measurement adapters share: the indexed access to a list
    of service-access names (overwrite inside the list, append just past its
    end, fail anywhere else) and the transponder turn-around ratio of a
    frequency band. */
module TdrsServiceAccess {
  import opened Common

  /** A division by zero, which GMAT leaves to floating point. */
  const DivisionByZero := "division by zero"

  const SetIndexError := "Index out of bounds when trying to set a service access name"

  function GetIndexError(index: int, size: nat): string
  {
    "Error: index (" + IntToString(index) + ") is out of bound (" + NatToString(size) + ")\n"
  }

  /** The list after setting the name at index: an index inside the list
      overwrites, the index just past the end appends, any other fails. */
  function SetAt(list: seq<string>, index: int, value: string): (r: Result<seq<string>>)
  {
    if 0 <= index < |list| then Ok(list[index := value])
    else if index == |list| then Ok(list + [value])
    else Err(SetIndexError)
  }

  /** The name at index, or the out-of-bound message. */
  function GetAt(list: seq<string>, index: int): (r: Result<string>)
  {
    if 0 <= index < |list| then Ok(list[index]) else Err(GetIndexError(index, |list|))
  }

  /** Setting succeeds exactly for 0 <= index <= size; then the name is at
      index, every other name stays where it was, and the list grows by one
      only when the name was appended. */
  lemma SetAtMeaning(list: seq<string>, index: int, value: string)
    ensures SetAt(list, index, value).Ok? <==> 0 <= index <= |list|
    ensures SetAt(list, index, value).Err? ==> SetAt(list, index, value).msg == SetIndexError
    ensures SetAt(list, index, value).Ok? ==>
      var l := SetAt(list, index, value).value;
      && |l| == (if index == |list| then |list| + 1 else |list|)
      && l[index] == value
      && forall j :: 0 <= j < |list| && j != index ==> l[j] == list[j]
  {
  }

  /** Reading back the index just set gives the name set, and reading any
      other index gives what it gave before. */
  lemma GetAfterSet(list: seq<string>, index: int, value: string, other: int)
    requires SetAt(list, index, value).Ok?
    ensures GetAt(SetAt(list, index, value).value, index) == Ok(value)
    ensures 0 <= other < |list| && other != index ==>
      GetAt(SetAt(list, index, value).value, other) == GetAt(list, other)
  {
  }

  /** The message of an unsupported frequency band. */
  function BandError(freqBand: int): string
  {
    "Error: frequency band " + IntToString(freqBand) + " is not specified.\n"
  }

  /** The transponder turn-around ratio: 240/221 for S-band (1), 880/749
      for X-band (2); any other band fails. */
  function TurnAroundRatio(freqBand: int): (r: Result<real>)
    ensures r.Ok? <==> freqBand == 1 || freqBand == 2
    ensures r.Ok? ==> r.value > 1.0
    ensures r.Err? ==> r.msg == BandError(freqBand)
  {
    if freqBand == 1 then Ok(240.0 / 221.0)
    else if freqBand == 2 then Ok(880.0 / 749.0)
    else Err(BandError(freqBand))
  }

  /** The turn-around ratios as the frequency ratios they define: 221
      received cycles come back as 240 in S-band, 749 as 880 in X-band. */
  lemma TurnAroundRatioScalesFrequency(freqBand: int, arrive: real)
    requires TurnAroundRatio(freqBand).Ok?
    ensures freqBand == 1 ==> TurnAroundRatio(freqBand).value * 221.0 * arrive == 240.0 * arrive
    ensures freqBand == 2 ==> TurnAroundRatio(freqBand).value * 749.0 * arrive == 880.0 * arrive
  {
  }
}
