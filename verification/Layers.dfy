/** The journal's results are what the handles' runs assume: a resume gives a chain, an append and a
    rewrite publish the manifests of the runs, and a lost commit is one that landed or did not. */
module Layers {
  import opened Prelude
  import opened Serde
  import opened Codec
  import opened Disk
  import opened Recovery
  import CrashSafety
  import opened CrashRuns
  import opened Resume
  import State
  import Handles

  type Encoding = Handles.Encoding
  type History = seq<State.Transaction>

  /** What is committed, as the handles see it. */
  function AsWorld(o: Opened, history: History): Handles.World {
    Handles.World(o.manifest, history, [])
  }

  /** The opened journal holds this history. */
  ghost predicate Carries(enc: Encoding, o: Opened, history: History) {
    Decode(o.bytes, o.manifest) == Some(o.transactions) && o.transactions == Handles.Encoded(enc, history)
  }

  lemma CarriesNames(enc: Encoding, o: Opened, history: History)
    requires Carries(enc, o, history)
    ensures Handles.Names(enc, o.manifest, history)
  {
    hide DecodeChain, Handles.Names;
    Handles.OpenedNames(enc, o.bytes, o.manifest, history);
  }

  /** Whenever the walk of a resume succeeds, the frames past the observed manifest chain to the
      committed one, so the handle may fold them onto its view. */
  lemma ResumedChains(enc: Encoding, f: Files, o: Opened, observed: Manifest, view: View, seen: History, history: History)
    requires Handles.Injective(enc) && OpenStrict(f) == Some(o) && o.transactions == Handles.Encoded(enc, history)
    requires Verified(observed, Handles.Encoded(enc, seen), view) && Continues(o, observed, view)
    requires Handles.Encoded(enc, seen) <= o.transactions
    ensures seen <= history && Handles.Chains(enc, AsWorld(o, history), observed)
  {
    hide DecodeChain, Handles.Chains, Handles.Names, Handles.Injective;
    StrictAcceptsSettled(f, o);
    CarriesNames(enc, o, history);
    Handles.OpenedNames(enc, view.bytes, observed, seen);
    Handles.EncodedPrefix(enc, history, |seen|);
    Handles.EncodedApart(enc, seen, history[..|seen|]);
    Handles.ChainsIffPrefix(enc, AsWorld(o, history), observed, seen);
  }

  /** The resume of a handle, with what it establishes for it. */
  method ResumeHandle(enc: Encoding, f: Files, stamps: Stamps, now: int, observed: Manifest, view: View,
                      ghost seen: History, ghost history: History)
    returns (r: Outcome)
    requires Handles.Injective(enc) && Verified(observed, Handles.Encoded(enc, seen), view)
    requires StampsHonest(f, stamps, observed, view)
    requires OpenStrict(f).Some? ==> OpenStrict(f).value.transactions == Handles.Encoded(enc, history)
    ensures r.Resumed? ==>
      && OpenStrict(f).Some? && seen <= history && r.added == Handles.Encoded(enc, history[|seen|..])
      && Handles.Chains(enc, AsWorld(OpenStrict(f).value, history), observed)
  {
    hide OpenStrict, Open, Verified, StampsHonest, Continues, KeepsCurrent, Handles.Chains, Handles.Injective;
    r := ResumeCommitted(f, stamps, now, observed, view, Handles.Encoded(enc, seen));
    if r.Resumed? {
      var o := OpenStrict(f).value;
      ResumedChains(enc, f, o, observed, view, seen, history);
      Handles.EncodedPrefix(enc, history, |seen|);
      assert history[..|seen|] == seen;
    }
  }

  /** An append publishes the manifest that the handles' commit does. */
  lemma AppendPublishes(enc: Encoding, o: Opened, history: History, t: State.Transaction)
    requires Carries(enc, o, history)
    ensures var next := CrashSafety.Appended(o, enc(t));
      && next.transactions == Handles.Encoded(enc, history + [t])
      && next.manifest == Handles.Published(enc, AsWorld(o, history), history + [t], false, next.manifest)
  {
    hide DecodeChain, Line, FrameDigest, Decode;
    CarriesNames(enc, o, history);
    var values := Handles.Encoded(enc, history);
    assert Handles.Encoded(enc, history + [t]) == values + [enc(t)];
    assert (values + [enc(t)])[..|values|] == values;
  }

  /** A rewrite publishes the manifest that the handles' rewrite does, in the next epoch. */
  lemma PrivacyPublishes(enc: Encoding, o: Opened, history: History, rewritten: History)
    ensures var next := CrashSafety.Rewritten(o, Handles.Encoded(enc, rewritten));
      && next.transactions == Handles.Encoded(enc, rewritten)
      && next.manifest == Handles.Published(enc, AsWorld(o, history), rewritten, true, next.manifest)
  {
    hide Written, End;
  }

  /** A commit whose process died left the store where the handles' lost commit leaves it: landed exactly
      when the manifest was swapped. */
  lemma LostCommit(enc: Encoding, f: Files, o: Opened, history: History, t: State.Transaction, k: nat, crashes: seq<nat>)
    requires Settled(f, o) && o.transactions == Handles.Encoded(enc, history)
    ensures Appendable(f, o.manifest)
    ensures var left := Crash(f, AppendTrail(f, o.manifest, enc(t)), k);
      var landed := left.manifest == Document(NextManifest(o.manifest, enc(t)));
      var result := Open(Run(left, Reopens(crashes))).result;
      && result.Some?
      && result.value.transactions == Handles.Encoded(enc, if landed then history + [t] else history)
      && result.value.manifest ==
           if landed then Handles.Published(enc, AsWorld(o, history), history + [t], false, result.value.manifest) else o.manifest
  {
    hide Open, AppendTrail, Decode, Run, CrashSafety.Appended, Handles.Published;
    AppendAtomic(f, o, enc(t), k, crashes);
    AppendPublishes(enc, o, history, t);
  }
}
