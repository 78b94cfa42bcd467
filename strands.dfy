/**
 * The Strands agent examples' own code: the `letter_counter` tool (the
 * same function in four scripts), the streaming callback that records
 * each tool use once, and the prompt default of the AgentCore entry
 * point. The agents, models and tools they are handed to are foreign.
 */
module Strands {
  import opened Wrappers
  import opened Text

  /** A tool argument as the agent passes it: a Python `str` or any other value. */
  datatype Value = Str(s: string) | NonStr

  /** Counting is multiplicity: the count is how often `c` occurs in the multiset of the characters. */
  lemma {:induction false} CountCharIsMultiplicity(s: string, c: char)
    ensures CountChar(s, c) == multiset(s)[c]
    decreases |s|
  {
    if s != [] {
      CountCharIsMultiplicity(s[..|s| - 1], c);
      assert s == s[..|s| - 1] + [s[|s| - 1]];
    }
  }

  /** Counting distributes over concatenation. */
  lemma {:induction false} CountCharAppend(a: string, b: string, c: char)
    ensures CountChar(a + b, c) == CountChar(a, c) + CountChar(b, c)
    decreases |b|
  {
    if b == [] {
      assert a + b == a;
    } else {
      assert (a + b)[..|a + b| - 1] == a + b[..|b| - 1];
      CountCharAppend(a, b[..|b| - 1], c);
    }
  }

  /**
   * `letter_counter`: 0 when either argument is not a string, a ValueError
   * unless `letter` is one character, otherwise the case-insensitive count
   * of `letter` in `word`.
   */
  function LetterCounter(word: Value, letter: Value): (r: Result<nat, string>)
    ensures !word.Str? || !letter.Str? ==> r == Ok(0)
    ensures word.Str? && letter.Str? ==> (r.Err? <==> |letter.s| != 1)
    ensures r.Ok? ==> r.value <= (if word.Str? then |word.s| else 0)
  {
    if !word.Str? || !letter.Str? then Ok(0)
    else if |letter.s| != 1 then Err("ValueError: The 'letter' parameter must be a single character")
    else Ok(CountChar(Lower(word.s), Lower(letter.s)[0]))
  }

  /** The count does not depend on the letter case of either argument. */
  lemma LetterCounterIgnoresCase(word: string, letter: char)
    ensures LetterCounter(Str(word), Str([letter])) == LetterCounter(Str(Lower(word)), Str(Lower([letter])))
  {
    LowerIdempotent(word);
    LowerIdempotent([letter]);
  }

  /** For a one-character letter the tool counts the word's characters that fold to the same lower-case letter. */
  lemma LetterCounterCounts(word: string, letter: char)
    ensures LetterCounter(Str(word), Str([letter])) == Ok(multiset(Lower(word))[LowerChar(letter)])
  {
    CountCharIsMultiplicity(Lower(word), LowerChar(letter));
  }

  /** "strawberry" holds three 'r' characters. */
  lemma StrawberryRs()
    ensures multiset("strawberry")['r'] == 3
  {
    assert "strawberry" == ['s', 't', 'r', 'a', 'w', 'b', 'e', 'r', 'r', 'y'];
  }

  /** "strawberry" is already lower-case. */
  lemma StrawberryLower(word: string)
    requires word == "strawberry"
    ensures Lower(word) == word
  {
  }

  /** The question the quickstart agent asks: there are three R's in "strawberry", whatever the case of the letter. */
  lemma StrawberryHasThreeRs(word: string, letter: char)
    requires word == "strawberry" && (letter == 'r' || letter == 'R')
    ensures LetterCounter(Str(word), Str([letter])) == Ok(3)
  {
    LetterCounterCounts(word, letter);
    StrawberryLower(word);
    StrawberryRs();
  }

  // ---------------------------------------------------------------------
  // The streaming callback
  // ---------------------------------------------------------------------

  /** The tool in use: its `toolUseId` (absent if the dictionary lacks the key) and its name. */
  datatype ToolUse = ToolUse(toolUseId: Option<string>, name: Option<string>)

  /** The keyword arguments of one callback: a streamed `data` chunk and/or the `current_tool_use`. */
  datatype CallbackArgs = CallbackArgs(data: Option<string>, currentToolUse: Option<ToolUse>)

  /** No id is recorded twice. */
  predicate NoDuplicates(ids: seq<string>) {
    forall i, j :: 0 <= i < j < |ids| ==> ids[i] != ids[j]
  }

  /**
   * The list after one callback: a data chunk leaves it alone; a tool use
   * appends its id unless already recorded; a tool use without an id
   * raises KeyError.
   */
  function Record(ids: seq<string>, args: CallbackArgs): (r: Result<seq<string>, string>)
    ensures r.Err? <==> args.data.None? && args.currentToolUse.Some? && args.currentToolUse.value.toolUseId.None?
    ensures r.Ok? ==> |ids| <= |r.value| <= |ids| + 1 && r.value[..|ids|] == ids
    ensures r.Ok? && NoDuplicates(ids) ==> NoDuplicates(r.value)
    ensures r.Ok? ==> forall x :: x in r.value <==>
      x in ids || (args.data.None? && args.currentToolUse.Some? && args.currentToolUse.value.toolUseId == Some(x))
  {
    if args.data.Some? then Ok(ids)
    else if args.currentToolUse.None? then Ok(ids)
    else match args.currentToolUse.value.toolUseId
      case None => Err("KeyError: 'toolUseId'")
      case Some(id) => if id in ids then Ok(ids) else Ok(ids + [id])
  }

  /** The module-level `tool_use_ids` list of the quickstart agent. */
  class ToolUseLog {
    var toolUseIds: seq<string>

    constructor ()
      ensures toolUseIds == []
    {
      toolUseIds := [];
    }

    /** `callback_handler`: records a new tool use id once; `ok` is false where the source raises KeyError. */
    method CallbackHandler(args: CallbackArgs) returns (ok: bool)
      modifies this
      ensures var r := Record(old(toolUseIds), args);
        ok == r.Ok? && toolUseIds == (if r.Ok? then r.value else old(toolUseIds))
    {
      if args.data.Some? {
        return true;
      } else if args.currentToolUse.Some? {
        var tool := args.currentToolUse.value;
        if tool.toolUseId.None? {
          return false;
        }
        if tool.toolUseId.value !in toolUseIds {
          toolUseIds := toolUseIds + [tool.toolUseId.value];
        }
      }
      return true;
    }
  }

  // ---------------------------------------------------------------------
  // The AgentCore entry point
  // ---------------------------------------------------------------------

  const DefaultPrompt := "Hello! I'm a helpful agent with shell access and custom tools."

  /** `payload.get("prompt", default)`: the user message `invoke` hands to the agent. */
  function UserMessage(payload: map<string, string>): (m: string)
    ensures "prompt" in payload ==> m == payload["prompt"]
    ensures "prompt" !in payload ==> m == DefaultPrompt
  {
    if "prompt" in payload then payload["prompt"] else DefaultPrompt
  }
}
