/** The sliding 24-hour window of one account, as the sorted set holds it: at most one marker that
    stands for history read from the table, and one entry per cached transaction. */
module Window {
  import opened Domain
  import opened Sums

  datatype Marker = Marker(amount: nat, score: nat)

  datatype Window = Window(marker: Option<Marker>, live: seq<Tx>) {
    // A sorted set exists exactly while it has a member.
    predicate Exists() { marker.Some? || live != [] }

    function MarkerAmount(): nat { if marker.Some? then marker.value.amount else 0 }

    function Volume(): nat { MarkerAmount() + Total(live) }

    function Size(): nat { |live| + if marker.Some? then 1 else 0 }

    function MarkerFrom(s: int): nat {
      if marker.Some? && marker.value.score >= s then marker.value.amount else 0
    }

    // Scores below `start` go; nothing bounds the range from above.
    function Trim(start: int): Window {
      Window(if marker.Some? && marker.value.score < start then None else marker, Kept(live, start))
    }

    function Add(tx: Tx): Window { this.(live := live + [tx]) }
  }

  const EMPTY: Window := Window(None, [])

  datatype Reading = Reading(window: Window, volume: nat, count: nat)

  // The metrics read at instant `t`; `answer` is what the table sums to when the key is absent.
  function Read(w: Window, t: nat, answer: nat): Reading {
    if w.Exists() then
      var kept := w.Trim(t - DAY);
      Reading(kept, kept.Volume(), kept.Size())
    else
      Reading(if answer > 0 then Window(Some(Marker(answer, t)), []) else EMPTY, answer, if answer > 0 then 1 else 0)
  }

  lemma ReadBounds(w: Window, t: nat, answer: nat)
    ensures var r := Read(w, t, answer);
      && r.volume == r.window.Volume()
      && r.count == r.window.Size()
      && (r.count == 0 <==> !r.window.Exists())
      && forall s: int | t - DAY <= s :: From(r.window.live, s) == From(w.live, s)
  {
    if w.Exists() {
      forall s: int | t - DAY <= s ensures From(Kept(w.live, t - DAY), s) == From(w.live, s) {
        KeptKeepsWindow(w.live, t - DAY, s);
      }
    }
  }
}
