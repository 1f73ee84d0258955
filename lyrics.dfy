/**
 * Lyrics selection: among a song's arrangements, in the order the API
 * returns them, the lyrics of the first one whose lyrics are non-empty.
 */
module Lyrics {
  import opened Wrappers

  /** One arrangement of a song; only its `lyrics` attribute is read. */
  datatype Arrangement = Arrangement(lyrics: Option<string>)

  /** The lyrics the scan settles on, or `None` when it runs off the end. */
  function FirstNonEmpty(arrangements: seq<Arrangement>): (r: Option<string>)
    ensures r.Some? ==> IsTruthy(r)
  {
    if arrangements == [] then None
    else if IsTruthy(arrangements[0].lyrics) then arrangements[0].lyrics
    else FirstNonEmpty(arrangements[1..])
  }

  /** The scan over the arrangements, returning as soon as it meets non-empty lyrics. */
  method GetLyrics(arrangements: seq<Arrangement>) returns (lyrics: Option<string>)
    ensures lyrics == FirstNonEmpty(arrangements)
  {
    for i := 0 to |arrangements|
      invariant FirstNonEmpty(arrangements[i..]) == FirstNonEmpty(arrangements)
    {
      if IsTruthy(arrangements[i].lyrics) {
        return arrangements[i].lyrics;
      }
      assert arrangements[i..][1..] == arrangements[i + 1..];
    }
    return None;
  }

  /**
   * If arrangement `k` has non-empty lyrics and every earlier one has empty
   * lyrics, the selection is arrangement `k`'s lyrics.
   */
  lemma {:induction false} FirstNonEmptyIsFirst(arrangements: seq<Arrangement>, k: nat)
    requires k < |arrangements| && IsTruthy(arrangements[k].lyrics)
    requires forall j :: 0 <= j < k ==> !IsTruthy(arrangements[j].lyrics)
    ensures FirstNonEmpty(arrangements) == arrangements[k].lyrics
  {
    if k > 0 {
      FirstNonEmptyIsFirst(arrangements[1..], k - 1);
    }
  }

  /** The selection is `None` exactly when every arrangement's lyrics are empty. */
  lemma {:induction false} FirstNonEmptyNoneIffAllEmpty(arrangements: seq<Arrangement>)
    ensures FirstNonEmpty(arrangements) == None <==>
              forall j :: 0 <= j < |arrangements| ==> !IsTruthy(arrangements[j].lyrics)
  {
    if arrangements != [] {
      FirstNonEmptyNoneIffAllEmpty(arrangements[1..]);
      assert forall j :: 1 <= j < |arrangements| ==> arrangements[j] == arrangements[1..][j - 1];
    }
  }

  /** Arrangements after one with non-empty lyrics are never consulted. */
  lemma {:induction false} FirstNonEmptyIgnoresLater(front: seq<Arrangement>, back: seq<Arrangement>)
    requires FirstNonEmpty(front).Some?
    ensures FirstNonEmpty(front + back) == FirstNonEmpty(front)
  {
    assert front != [];
    if !IsTruthy(front[0].lyrics) {
      assert (front + back)[1..] == front[1..] + back;
      FirstNonEmptyIgnoresLater(front[1..], back);
    }
  }
}
