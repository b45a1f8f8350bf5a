/**
 * The DAC-presence heuristic of play.py:93-106: the card listing (`aplay -l`)
 * and the PCM listing (`aplay -L`) are joined by a newline, lower-cased, and
 * searched for any of a fixed list of I2S DAC driver and overlay names.
 */
module Probe {

  /** `str.lower()` on one character; only ASCII letters are folded in this model. */
  function LowerChar(c: char): char {
    if 'A' <= c <= 'Z' then (c as int + 32) as char else c
  }

  function Lower(s: string): string {
    seq(|s|, i requires 0 <= i < |s| => LowerChar(s[i]))
  }

  /** `needle` occurs in `hay` starting at index `i`. */
  predicate OccursAt(hay: string, needle: string, i: int) {
    0 <= i <= |hay| - |needle| && hay[i..i + |needle|] == needle
  }

  /** Python's `needle in hay` on strings: `needle` is a contiguous slice of `hay`. */
  predicate Contains(hay: string, needle: string) {
    exists i | 0 <= i <= |hay| - |needle| :: OccursAt(hay, needle, i)
  }

  /** The keyword list of play.py:96-105, in its order. */
  const Keywords: seq<string> := [
    "hifiberry",
    "i2s",
    "snd_rpi_hifiberry_dac",
    "sndrpihifiberry",
    "rpi-dac",
    "rpidac",
    "dac",
    "pcm51"
  ]

  /** The text the heuristic searches: both listings, newline-joined, lower-cased. */
  function Haystack(cards: string, pcms: string): string {
    Lower(cards + "\n" + pcms)
  }

  /** `_guess_pcm5100_card_present`: does any keyword occur in the haystack? */
  predicate GuessPcm5100CardPresent(cards: string, pcms: string) {
    exists k | k in Keywords :: Contains(Haystack(cards, pcms), k)
  }

  // ---------------------------------------------------------------------------
  // Facts about substrings and lower-casing

  lemma ContainsAt(hay: string, needle: string, i: int)
    requires OccursAt(hay, needle, i)
    ensures Contains(hay, needle)
  {
  }

  lemma {:induction false} ContainsTransitive(a: string, b: string, c: string)
    requires Contains(a, b) && Contains(b, c)
    ensures Contains(a, c)
  {
    var i :| OccursAt(a, b, i);
    var j :| OccursAt(b, c, j);
    assert OccursAt(a, b, i) && OccursAt(b, c, j);
    forall m | 0 <= m < |c|
      ensures a[i + j + m] == c[m]
    {
      assert c[m] == b[j + m] == a[i + j + m];
    }
    assert a[i + j..i + j + |c|] == c;
    ContainsAt(a, c, i + j);
  }

  lemma LowerAppend(a: string, b: string)
    ensures Lower(a + b) == Lower(a) + Lower(b)
  {
  }

  lemma LowerSlice(s: string, i: int, j: int)
    requires 0 <= i <= j <= |s|
    ensures Lower(s)[i..j] == Lower(s[i..j])
  {
  }

  /** Lower-casing keeps an occurrence an occurrence. */
  lemma {:induction false} ContainsLower(hay: string, needle: string)
    requires Contains(hay, needle)
    ensures Contains(Lower(hay), Lower(needle))
  {
    var i :| OccursAt(hay, needle, i);
    assert OccursAt(hay, needle, i);
    LowerSlice(hay, i, i + |needle|);
    ContainsAt(Lower(hay), Lower(needle), i);
  }

  lemma KeywordsHaveNoNewline()
    ensures forall k :: k in Keywords ==> forall m :: 0 <= m < |k| ==> k[m] != '\n'
  {
  }

  lemma NewlineFreeOccurrence(hay: string, k: string, i: int, p: int)
    requires forall m :: 0 <= m < |k| ==> k[m] != '\n'
    requires OccursAt(hay, k, i)
    ensures i <= p < i + |k| ==> hay[p] != '\n'
  {
    if i <= p < i + |k| {
      assert hay[p] == hay[i..i + |k|][p - i];
    }
  }

  /** Joining two texts with a newline neither adds nor loses an occurrence of a newline-free needle. */
  lemma {:induction false} JoinedByNewline(x: string, y: string, k: string)
    requires forall m :: 0 <= m < |k| ==> k[m] != '\n'
    ensures Contains(x + "\n" + y, k) <==> Contains(x, k) || Contains(y, k)
  {
    var hay := x + "\n" + y;
    if Contains(hay, k) {
      var i :| OccursAt(hay, k, i);
      assert OccursAt(hay, k, i);
      NewlineFreeOccurrence(hay, k, i, |x|);
      assert hay[|x|] == '\n';
      if i + |k| <= |x| {
        assert x[i..i + |k|] == k by {
          forall m | 0 <= m < |k| ensures x[i + m] == k[m] {
            assert k[m] == hay[i + m];
          }
        }
        ContainsAt(x, k, i);
      } else {
        var j := i - |x| - 1;
        assert y[j..j + |k|] == k by {
          forall m | 0 <= m < |k| ensures y[j + m] == k[m] {
            assert k[m] == hay[i + m];
          }
        }
        ContainsAt(y, k, j);
      }
    }
    if Contains(x, k) {
      var i :| OccursAt(x, k, i);
      assert OccursAt(x, k, i);
      assert hay[i..i + |k|] == k by {
        forall m | 0 <= m < |k| ensures hay[i + m] == k[m] {
          assert k[m] == x[i + m];
        }
      }
      ContainsAt(hay, k, i);
    }
    if Contains(y, k) {
      var i :| OccursAt(y, k, i);
      assert OccursAt(y, k, i);
      var h := |x| + 1 + i;
      assert hay[h..h + |k|] == k by {
        forall m | 0 <= m < |k| ensures hay[h + m] == k[m] {
          assert k[m] == y[i + m];
        }
      }
      ContainsAt(hay, k, h);
    }
  }

  /**
   * A keyword occurrence in the haystack lies wholly in the lower-cased card
   * listing or wholly in the lower-cased PCM listing: no keyword spans the
   * joining newline.
   */
  lemma OccurrenceInOnePart(cards: string, pcms: string, k: string)
    requires k in Keywords
    ensures Contains(Haystack(cards, pcms), k) <==> Contains(Lower(cards), k) || Contains(Lower(pcms), k)
  {
    LowerAppend(cards + "\n", pcms);
    LowerAppend(cards, "\n");
    assert Haystack(cards, pcms) == Lower(cards) + "\n" + Lower(pcms);
    KeywordsHaveNoNewline();
    JoinedByNewline(Lower(cards), Lower(pcms), k);
  }

  // ---------------------------------------------------------------------------
  // Properties of the heuristic

  /** The heuristic fires exactly when some keyword occurs in one of the two listings. */
  lemma GuessSplits(cards: string, pcms: string)
    ensures GuessPcm5100CardPresent(cards, pcms) <==>
      exists k | k in Keywords :: Contains(Lower(cards), k) || Contains(Lower(pcms), k)
  {
    forall k | k in Keywords {
      OccurrenceInOnePart(cards, pcms, k);
    }
  }

  /** Any listing that mentions "dac", in whatever ASCII letter case, makes the heuristic fire. */
  lemma DacInAnyCaseDetected(cards: string, pcms: string)
    requires Contains(Lower(cards), "dac") || Contains(Lower(pcms), "dac")
    ensures GuessPcm5100CardPresent(cards, pcms)
  {
    assert Keywords[6] == "dac";
    OccurrenceInOnePart(cards, pcms, "dac");
  }

  /** Longer listings never turn a detected DAC into an undetected one. */
  lemma Monotone(cards: string, pcms: string, cards': string, pcms': string)
    requires Contains(cards', cards) && Contains(pcms', pcms)
    requires GuessPcm5100CardPresent(cards, pcms)
    ensures GuessPcm5100CardPresent(cards', pcms')
  {
    GuessSplits(cards, pcms);
    var k :| k in Keywords && (Contains(Lower(cards), k) || Contains(Lower(pcms), k));
    ContainsLower(cards', cards);
    ContainsLower(pcms', pcms);
    if Contains(Lower(cards), k) {
      ContainsTransitive(Lower(cards'), Lower(cards), k);
    } else {
      ContainsTransitive(Lower(pcms'), Lower(pcms), k);
    }
    OccurrenceInOnePart(cards', pcms', k);
  }

  /**
   * Four of the eight keywords are redundant: each of them contains
   * "hifiberry" or "dac", so the heuristic is the search for
   * "hifiberry", "i2s", "dac" or "pcm51".
   */
  lemma KeywordListReduces(cards: string, pcms: string)
    ensures GuessPcm5100CardPresent(cards, pcms) <==>
      exists k | k in ["hifiberry", "i2s", "dac", "pcm51"] :: Contains(Haystack(cards, pcms), k)
  {
    var hay := Haystack(cards, pcms);
    ContainsAt("snd_rpi_hifiberry_dac", "hifiberry", 8);
    ContainsAt("sndrpihifiberry", "hifiberry", 6);
    ContainsAt("rpi-dac", "dac", 4);
    ContainsAt("rpidac", "dac", 3);
    forall k | k in Keywords && Contains(hay, k)
      ensures exists k' | k' in ["hifiberry", "i2s", "dac", "pcm51"] :: Contains(hay, k')
    {
      if k == "snd_rpi_hifiberry_dac" || k == "sndrpihifiberry" {
        ContainsTransitive(hay, k, "hifiberry");
      } else if k == "rpi-dac" || k == "rpidac" {
        ContainsTransitive(hay, k, "dac");
      }
    }
  }

  /** With no listing at all (aplay missing) the heuristic reports no DAC. */
  lemma NoListingNoDac()
    ensures !GuessPcm5100CardPresent("", "")
  {
    var hay := Haystack("", "");
    assert |hay| == 1;
    forall k | k in Keywords
      ensures !Contains(hay, k)
    {
      assert |k| >= 3;
    }
  }
}
