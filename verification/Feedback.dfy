/** User feedback inside a run: which messages stop it, and the drain that
    happens while the model is still streaming. */
module Feedback {
  import opened Strings

  datatype Item = Interrupt | Directive(message: string)

  const STOP_WORDS := ["stop", "halt", "abort", "cancel", "quit"]

  predicate Stops(fb: Item) {
    fb.Interrupt? || exists w :: w in STOP_WORDS && Find(Lower(fb.message), w, 0).Some?
  }

  /** The items before the first one that stops. */
  function BeforeStop(fbs: seq<Item>): (r: seq<Item>)
    ensures r <= fbs
    ensures forall fb :: fb in r ==> fb.Directive? && !Stops(fb)
    ensures |r| < |fbs| ==> Stops(fbs[|r|])
  {
    if fbs == [] || Stops(fbs[0]) then [] else [fbs[0]] + BeforeStop(fbs[1..])
  }

  predicate AnyStops(fbs: seq<Item>) {
    |BeforeStop(fbs)| < |fbs|
  }

  lemma {:induction false} AnyStopsIff(fbs: seq<Item>)
    ensures AnyStops(fbs) <==> exists fb :: fb in fbs && Stops(fb)
    ensures !AnyStops(fbs) ==> BeforeStop(fbs) == fbs
  {
    if fbs != [] && !Stops(fbs[0]) {
      AnyStopsIff(fbs[1..]);
      assert fbs == [fbs[0]] + fbs[1..];
    }
  }

  /** The drain between two stream events: anything that stops ends the run at
      once; otherwise all of it goes back unchanged and in order. */
  method DrainMidStream(pending: seq<Item>) returns (kept: seq<Item>, stopped: bool)
    ensures stopped <==> exists fb :: fb in pending && Stops(fb)
    ensures !stopped ==> kept == pending
    ensures stopped ==> kept < pending && Stops(pending[|kept|]) && forall fb :: fb in kept ==> !Stops(fb)
  {
    kept := [];
    for i := 0 to |pending|
      invariant kept == pending[..i]
      invariant forall fb :: fb in kept ==> !Stops(fb)
    {
      if Stops(pending[i]) {
        return kept, true;
      }
      kept := kept + [pending[i]];
    }
    stopped := false;
  }


  /** A message stops exactly if it is an interrupt or has one of five words in
      it, whatever the case of its letters. */
  lemma StopsIff(fb: Item)
    ensures Stops(fb) <==>
            fb.Interrupt? || exists w, i: nat ::
              w in ["stop", "halt", "abort", "cancel", "quit"] && At(Lower(fb.message), w, i)
  {
    if fb.Directive? {
      forall w | w in STOP_WORDS
        ensures Find(Lower(fb.message), w, 0).Some? <==> exists i: nat :: At(Lower(fb.message), w, i)
      {
        FindSpec(Lower(fb.message), w, 0);
      }
    }
  }
}
