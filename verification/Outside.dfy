/** What a turn asks outside the kernel, apart from its provider and its storage. */
module Outside {
  import opened Domain
  import opened Hooks
  import opened ProviderStream

  /** How dispatching a hook ends. */
  datatype HookVerdict = HookPassed | HookAborted | HookBroken

  /** What the outside will do during one turn: how each hook ends, given its data and how many were asked before
      it, what the compact model streams to each request, whether each model request can be built, and whether each
      memory extraction succeeds. */
  datatype Foreseen = Foreseen(verdict: (HookData, nat) -> HookVerdict, summary: nat -> Option<seq<StreamItem>>,
                               buildable: nat -> bool, extracts: nat -> bool)

  /** The outside of one turn, and what it has been asked so far. */
  class Surroundings {
    const foreseen: Foreseen
    var asked: seq<HookData>
    var summaries: nat
    var built: nat
    var extractions: nat

    constructor (foreseen: Foreseen)
      ensures this.foreseen == foreseen && asked == [] && summaries == 0 && built == 0 && extractions == 0
    {
      this.foreseen, asked, summaries, built, extractions := foreseen, [], 0, 0, 0;
    }

    function VerdictAt(i: nat): HookVerdict
      requires i < |asked|
      reads `asked
    {
      foreseen.verdict(asked[i], i)
    }

    /** The last hook asked had this data and ended like this. */
    predicate Answered(data: HookData, verdict: HookVerdict)
      reads `asked
    {
      asked != [] && asked[|asked| - 1] == data && VerdictAt(|asked| - 1) == verdict
    }

    method Ask(data: HookData) returns (verdict: HookVerdict)
      modifies `asked
      ensures asked == old(asked) + [data] && Answered(data, verdict)
      ensures verdict == foreseen.verdict(data, |old(asked)|)
    {
      verdict := foreseen.verdict(data, |asked|);
      asked := asked + [data];
    }

    /** What the compact model streamed last. */
    function LastSummary(): Option<seq<StreamItem>>
      requires summaries > 0
      reads `summaries
    {
      foreseen.summary(summaries - 1)
    }

    method Summarise() returns (stream: Option<seq<StreamItem>>)
      modifies `summaries
      ensures summaries == old(summaries) + 1 && stream == LastSummary()
    {
      stream := foreseen.summary(summaries);
      summaries := summaries + 1;
    }

    /** The last request could not be built. */
    predicate Unbuildable()
      reads `built
    {
      built > 0 && !foreseen.buildable(built - 1)
    }

    method Build() returns (ok: bool)
      modifies `built
      ensures built == old(built) + 1 && ok == !Unbuildable() && ok == foreseen.buildable(old(built))
    {
      ok := foreseen.buildable(built);
      built := built + 1;
    }

    method Extract() returns (ok: bool)
      modifies `extractions
      ensures extractions == old(extractions) + 1 && ok == foreseen.extracts(old(extractions))
    {
      ok := foreseen.extracts(extractions);
      extractions := extractions + 1;
    }
  }
}
