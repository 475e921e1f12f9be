/**
 * The audio engine's per-frame step: an edge detector on the drag flag that
 * starts and releases the synth note, and the vibe-to-sound mappings ramped
 * every frame. Tone.js is an event log plus the last ramp targets; the audio
 * context's `running` state and the synth's `started` state are inputs.
 */
module AudioEngine {
  import opened AppStore
  import Reals

  /** `lerp(a, b, t)` of the audio engine. */
  function Lerp(a: real, b: real, t: real): (r: real)
    ensures t == 0.0 ==> r == a
    ensures t == 1.0 ==> r == b
  {
    a + (b - a) * t
  }

  /** Synth pitch in Hz: 80 when depleted, 800 when hyper. */
  function Frequency(v: real): (hz: real)
    ensures v == 0.0 ==> hz == 80.0
    ensures v == 0.5 ==> hz == 440.0
    ensures v == 1.0 ==> hz == 800.0
    ensures 0.0 <= v <= 1.0 ==> 80.0 <= hz <= 800.0
  {
    Lerp(80.0, 800.0, v)
  }

  /** Low-pass cut-off in Hz: muffled at 200 when depleted, bright at 15000 when hyper. */
  function FilterFrequency(v: real): (hz: real)
    ensures v == 0.0 ==> hz == 200.0
    ensures v == 1.0 ==> hz == 15000.0
    ensures 0.0 <= v <= 1.0 ==> 200.0 <= hz <= 15000.0
  {
    Lerp(200.0, 15000.0, v)
  }

  /** Bit-crusher depth: clean 16 bits when depleted, fizzy 4 bits when hyper. */
  function Bits(v: real): (b: real)
    ensures v == 0.0 ==> b == 16.0
    ensures v == 1.0 ==> b == 4.0
    ensures 0.0 <= v <= 1.0 ==> 4.0 <= b <= 16.0
  {
    Lerp(16.0, 4.0, v)
  }

  /** Gain target: silent when not dragging, louder the further the vibe is from neutral. */
  function GainTarget(v: real, dragging: bool): (g: real)
    ensures !dragging ==> g == 0.0
    ensures dragging ==> g >= 0.05
    ensures dragging && 0.0 <= v <= 1.0 ==> g <= 0.3
    ensures dragging && v == 0.5 ==> g == 0.05
    ensures dragging && (v == 0.0 || v == 1.0) ==> g == 0.3
  {
    var extremity := Reals.Abs(v - 0.5) * 2.0;
    if dragging then 0.05 + extremity * 0.25 else 0.0
  }

  /** Seconds over which the gain ramps: quick while dragging, a slow fade after. */
  function GainRampSeconds(dragging: bool): (sec: real)
    ensures dragging ==> sec == 0.05
    ensures !dragging ==> sec == 0.3
  {
    if dragging then 0.05 else 0.3
  }

  /** One edge of the drag flag: a press (with whether `triggerAttack` was called) or a release. */
  datatype Edge = Press(attacked: bool) | Release

  /** Presses and releases alternate, beginning with a press. */
  predicate Alternates(edges: seq<Edge>) {
    forall i :: 0 <= i < |edges| ==> (edges[i].Release? <==> i % 2 == 1)
  }

  class Engine {
    /** Whether synth, filter, crusher and gain all exist. */
    var nodesReady: bool
    var hasInteracted: bool
    var edges: seq<Edge>
    var frequency: real
    var filterFrequency: real
    var bits: real
    var gain: real
    var gainRampSeconds: real

    /** The interaction flag is exactly "the last edge was a press". */
    ghost predicate Valid()
      reads this
    {
      Alternates(edges) && (hasInteracted <==> |edges| % 2 == 1)
    }

    /** The first render: every node ref is still null and nothing has been played. */
    constructor()
      ensures Valid() && !nodesReady && !hasInteracted && edges == []
    {
      nodesReady := false;
      hasInteracted := false;
      edges := [];
      frequency := 0.0;
      filterFrequency := 0.0;
      bits := 0.0;
      gain := 0.0;
      gainRampSeconds := 0.0;
    }

    /**
     * The mount effect: build the chain once, with the gain node at 0 (silent
     * before any interaction), the filter at 2000 Hz and the crusher at 16
     * bits. A second run finds the chain built and does nothing.
     */
    method Mount()
      requires Valid()
      modifies this
      ensures Valid() && nodesReady && hasInteracted == old(hasInteracted) && edges == old(edges)
      ensures !old(nodesReady) ==> gain == 0.0 && filterFrequency == 2000.0 && bits == 16.0
      ensures old(nodesReady) ==>
        gain == old(gain) && filterFrequency == old(filterFrequency) && bits == old(bits) && frequency == old(frequency)
    {
      if nodesReady {
        return;
      }
      nodesReady := true;
      gain := 0.0;
      filterFrequency := 2000.0;
      bits := 16.0;
    }

    /**
     * One frame with the store state `s`. `running` is the audio context's
     * state and `synthStarted` whether the synth is already playing.
     */
    method Frame(s: AppState, running: bool, synthStarted: bool)
      requires Valid()
      modifies this
      ensures Valid() && nodesReady == old(nodesReady)
      // gated: nothing happens until the nodes exist and the context runs
      ensures !(old(nodesReady) && running) ==>
        edges == old(edges) && hasInteracted == old(hasInteracted) && gain == old(gain)
        && frequency == old(frequency) && filterFrequency == old(filterFrequency) && bits == old(bits)
        && gainRampSeconds == old(gainRampSeconds)
      ensures old(nodesReady) && running ==>
        hasInteracted == s.isDragging
        // an edge is logged exactly when the drag flag differs from the tracked one
        && edges == old(edges) + (if s.isDragging == old(hasInteracted) then []
                                  else if s.isDragging then [Press(!synthStarted)] else [Release])
        && frequency == Frequency(s.vibe) && filterFrequency == FilterFrequency(s.vibe) && bits == Bits(s.vibe)
        && gain == GainTarget(s.vibe, s.isDragging) && gainRampSeconds == GainRampSeconds(s.isDragging)
    {
      if !nodesReady {
        return;
      }
      if !running {
        return;
      }
      var v := s.vibe;
      var dragging := s.isDragging;
      if dragging && !hasInteracted {
        hasInteracted := true;
        edges := edges + [Press(!synthStarted)];
      }
      if !dragging && hasInteracted {
        hasInteracted := false;
        edges := edges + [Release];
      }
      frequency := Lerp(80.0, 800.0, v);
      filterFrequency := Lerp(200.0, 15000.0, v);
      bits := Lerp(16.0, 4.0, v);
      var extremity := Reals.Abs(v - 0.5) * 2.0;
      gain := if dragging then 0.05 + extremity * 0.25 else 0.0;
      gainRampSeconds := if dragging then 0.05 else 0.3;
    }
  }

  /** How many releases `edges` holds. */
  function Releases(edges: seq<Edge>): (n: nat)
    ensures n <= |edges|
    decreases |edges|
  {
    if edges == [] then 0
    else Releases(edges[..|edges| - 1]) + (if edges[|edges| - 1].Release? then 1 else 0)
  }

  /**
   * Under alternation the releases are exactly half the edges, rounded
   * down: never more releases than presses, and one press is left open
   * exactly when the count is odd.
   */
  lemma {:induction false} PressesBalanceReleases(edges: seq<Edge>)
    requires Alternates(edges)
    ensures Releases(edges) == |edges| / 2
    ensures |edges| - Releases(edges) == Releases(edges) + |edges| % 2
    decreases |edges|
  {
    if edges != [] {
      var n := |edges| - 1;
      var prefix := edges[..n];
      assert Alternates(prefix) by {
        forall i | 0 <= i < |prefix| ensures prefix[i].Release? <==> i % 2 == 1 {
          assert prefix[i] == edges[i];
        }
      }
      PressesBalanceReleases(prefix);
      assert edges[n].Release? <==> n % 2 == 1;
    }
  }
}
