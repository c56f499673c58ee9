/**
 * The shared system message of the assistant. Every model step appends a
 * `### Data` block with the current roster text to its content, in place;
 * nothing is ever removed.
 */
module Prompt {
  import opened Wrappers
  import opened Roster

  /** The heading lines of a data block. */
  const DataHeader: string := "\n### Data\nHere is the current list of companies:\n"

  /** The block appended on each model step: the heading, the roster text, a final line break. */
  function DataBlock(rosterText: string): (block: string)
    ensures |block| == |DataHeader| + |rosterText| + 1
    ensures block[..|DataHeader|] == DataHeader
    ensures block[|DataHeader|..|block| - 1] == rosterText
    ensures block[|block| - 1] == '\n'
  {
    DataHeader + rosterText + "\n"
  }

  /** The content after model steps that saw the rosters `rosters`, in order. */
  function Grown(persona: string, rosters: seq<Option<seq<Company>>>): (content: string)
    decreases |rosters|
  {
    if rosters == [] then persona
    else Grown(persona, rosters[..|rosters| - 1]) + DataBlock(RosterText(rosters[|rosters| - 1]))
  }

  class SystemMessage {
    var content: string
    /** The text the message started with. */
    ghost var persona: string
    /** The rosters seen by the model steps so far, oldest first. */
    ghost var rosters: seq<Option<seq<Company>>>

    ghost predicate Valid()
      reads this
    {
      content == Grown(persona, rosters)
    }

    constructor (text: string)
      ensures Valid()
      ensures content == text && persona == text && rosters == []
    {
      content := text;
      persona := text;
      rosters := [];
    }

    /**
     * The deterministic part of a model step: append the data block for the
     * current roster (a missing roster counts as empty) and build the prompt,
     * the message followed by the conversation so far.
     */
    method CallModel(companies: Option<seq<Company>>, messages: seq<string>) returns (prompt: seq<string>)
      requires Valid()
      modifies this
      ensures Valid()
      ensures persona == old(persona) && rosters == old(rosters) + [companies]
      ensures content == old(content) + DataBlock(RosterText(companies))
      ensures prompt == [content] + messages
    {
      var companiesText := RosterText(companies);
      content := content + DataBlock(companiesText);
      rosters := rosters + [companies];
      assert rosters[..|rosters| - 1] == old(rosters);
      prompt := [content] + messages;
    }
  }

  /** The content only grows: every earlier content is a prefix of every later one. */
  lemma {:induction false} GrownPrefix(persona: string, rosters: seq<Option<seq<Company>>>, i: nat)
    requires i <= |rosters|
    ensures Grown(persona, rosters[..i]) <= Grown(persona, rosters)
    decreases |rosters|
  {
    if i < |rosters| {
      var init := rosters[..|rosters| - 1];
      GrownPrefix(persona, init, i);
      assert init[..i] == rosters[..i];
    } else {
      assert rosters[..i] == rosters;
    }
  }

  /** (k + 1) * h == k * h + h */
  lemma MulSucc(k: nat, h: nat)
    ensures (k + 1) * h == k * h + h
  {
  }

  /** Each model step adds at least the heading and the final line break. */
  lemma {:induction false} GrownLength(persona: string, rosters: seq<Option<seq<Company>>>)
    ensures |Grown(persona, rosters)| >= |persona| + |rosters| * (|DataHeader| + 1)
    decreases |rosters|
  {
    if rosters != [] {
      var init := rosters[..|rosters| - 1];
      GrownLength(persona, init);
      var block := DataBlock(RosterText(rosters[|rosters| - 1]));
      assert |Grown(persona, rosters)| == |Grown(persona, init)| + |block|;
      MulSucc(|init|, |DataHeader| + 1);
    }
  }

  /** The latest data block ends the content and holds the latest roster text. */
  lemma GrownEndsWithLatestRoster(persona: string, rosters: seq<Option<seq<Company>>>)
    requires rosters != []
    ensures var content := Grown(persona, rosters);
      var text := RosterText(rosters[|rosters| - 1]);
      |content| >= |DataHeader| + |text| + 1 &&
      content[|content| - |DataBlock(text)|..] == DataBlock(text)
  {
  }
}
