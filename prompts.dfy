/** lib/prompts.ts: the six agent names, the pick of a pair of them, the
    four system prompts and the four user-prompt templates. */
module Prompts {
  import opened Common

  const AgentNames: seq<string> := ["Nova", "Cipher", "Apex", "Vortex", "Zenith", "Blaze"]

  predicate Distinct(s: seq<string>)
  {
    forall i, j :: 0 <= i < j < |s| ==> s[i] != s[j]
  }

  lemma AgentNamesDistinct()
    ensures |AgentNames| == 6 && Distinct(AgentNames)
  {
  }

  /** In a sequence without repetitions every element occurs once. */
  lemma {:induction false} DistinctOccursOnce(s: seq<string>, x: string)
    requires Distinct(s)
    ensures multiset(s)[x] <= 1
  {
    if s != [] {
      assert s == [s[0]] + s[1..];
      assert Distinct(s[1..]) by {
        forall i, j | 0 <= i < j < |s[1..]| ensures s[1..][i] != s[1..][j] {
          assert s[1..][i] == s[i + 1] && s[1..][j] == s[j + 1];
        }
      }
      DistinctOccursOnce(s[1..], x);
      if s[0] == x {
        assert x !in s[1..] by {
          forall k | 0 <= k < |s[1..]| ensures s[1..][k] != x {
            assert s[1..][k] == s[k + 1];
          }
        }
      }
    }
  }

  /** Any permutation of AGENT_NAMES has six entries and distinct first two. */
  lemma {:induction false} PermutationHeadDistinct(shuffled: seq<string>)
    requires multiset(shuffled) == multiset(AgentNames)
    ensures |shuffled| == 6 && shuffled[0] != shuffled[1]
  {
    assert |shuffled| == |multiset(shuffled)| == 6;
    assert shuffled[0] in multiset(AgentNames);
    AgentNamesDistinct();
    DistinctOccursOnce(AgentNames, shuffled[0]);
    assert shuffled == [shuffled[0], shuffled[1]] + shuffled[2..];
    assert multiset(shuffled) == multiset([shuffled[0], shuffled[1]]) + multiset(shuffled[2..]);
  }

  /** `getRandomAgentPair`: `shuffled` is the copy of AGENT_NAMES that the
      random comparator sorted, i.e. some permutation of it; the pair is its
      first two entries. */
  function AgentPair(shuffled: seq<string>): (pair: (string, string))
    requires multiset(shuffled) == multiset(AgentNames)
    ensures pair.0 in AgentNames && pair.1 in AgentNames
    ensures pair.0 != pair.1
  {
    PermutationHeadDistinct(shuffled);
    assert shuffled[0] in multiset(shuffled) && shuffled[1] in multiset(shuffled);
    (shuffled[0], shuffled[1])
  }

  /** `SYSTEM_PROMPTS`. */
  const GeneratorSystemPrompt: string :=
    "You are an elite code generator. Output ONLY clean, working code.\nRules:\n- NO explanations, NO markdown, NO comments unless essential\n- Code must be complete and runnable\n- Choose optimal approach for the task\n- Be concise but correct"

  const RefinerSystemPrompt: string :=
    "You are a code refiner. Improve the given code.\nRules:\n- Output ONLY the improved code\n- Fix bugs, optimize, improve readability\n- Keep same language and approach\n- NO explanations"

  const CriticSystemPrompt: string :=
    "You are a code critic. Analyze both solutions briefly.\nOutput JSON only:\n{\"a\":{\"strengths\":\"...\",\"weaknesses\":\"...\"},\"b\":{\"strengths\":\"...\",\"weaknesses\":\"...\"}}\nBe concise. Max 50 words per field."

  const JudgeSystemPrompt: string :=
    "You are the final judge. Pick the winner based on:\n- Correctness (40%)\n- Code quality (30%)\n- Efficiency (20%)\n- Elegance (10%)\n\nOutput JSON only:\n{\"winner\":\"A\"|\"B\",\"score_a\":0-100,\"score_b\":0-100,\"reason\":\"...\"}\nMax 30 words for reason."

  /** The keys of `SYSTEM_PROMPTS`. */
  datatype SystemRole = Generator | Refiner | Critic | Judge

  /** `SYSTEM_PROMPTS[role]`. */
  function SystemPrompt(role: SystemRole): string
  {
    match role
    case Generator => GeneratorSystemPrompt
    case Refiner => RefinerSystemPrompt
    case Critic => CriticSystemPrompt
    case Judge => JudgeSystemPrompt
  }

  const GeneratorHead: string := "Task: "
  const GeneratorMiddle: string := "\n\nYou are "
  const GeneratorTail: string := ". Generate optimal solution. CODE ONLY."

  /** `makeGeneratorPrompt`: the task after "Task: ", then the agent's name
      after a blank line and "You are ", then the fixed instruction. */
  function GeneratorPrompt(task: string, agentName: string): (p: string)
    ensures |p| == |task| + |agentName| + 55
    ensures StartsWith(p, GeneratorHead) && p[6..6 + |task|] == task
    ensures p[6 + |task|..16 + |task|] == GeneratorMiddle
    ensures p[16 + |task|..16 + |task| + |agentName|] == agentName
    ensures EndsWith(p, GeneratorTail)
  {
    GeneratorHead + task + GeneratorMiddle + agentName + GeneratorTail
  }

  /** For one task, the two agents of a battle get different generator
      prompts exactly when their names differ. */
  lemma GeneratorPromptSeparatesAgents(task: string, n1: string, n2: string)
    ensures GeneratorPrompt(task, n1) == GeneratorPrompt(task, n2) <==> n1 == n2
  {
    var p1, p2 := GeneratorPrompt(task, n1), GeneratorPrompt(task, n2);
    if p1 == p2 {
      assert |n1| == |n2|;
      assert n1 == p1[16 + |task|..16 + |task| + |n1|] == p2[16 + |task|..16 + |task| + |n2|] == n2;
    }
  }

  const RefinerHead: string := "Refine this code. Output improved version only:\n\n"

  /** `makeRefinerPrompt`: a fixed head, then the code verbatim to the end. */
  function RefinerPrompt(code: string): (p: string)
    ensures StartsWith(p, RefinerHead) && EndsWith(p, code)
    ensures |p| == |RefinerHead| + |code|
  {
    RefinerHead + code
  }

  /** The code a refiner prompt carries. */
  function RefinerCode(p: string): Option<string>
  {
    if StartsWith(p, RefinerHead) then Some(p[|RefinerHead|..]) else None
  }

  lemma RefinerRoundTrip(code: string)
    ensures RefinerCode(RefinerPrompt(code)) == Some(code)
  {
  }

  const CriticHead: string := "Compare:\n\n[A]\n"
  const SideBSeparator: string := "\n\n[B]\n"

  /** `makeCriticPrompt`: code A between "[A]\n" and "\n\n[B]\n", and the
      prompt ends with code B. */
  function CriticPrompt(codeA: string, codeB: string): (p: string)
    ensures |p| == |codeA| + |codeB| + 20
    ensures StartsWith(p, CriticHead)
    ensures p[14..14 + |codeA|] == codeA
    ensures p[14 + |codeA|..20 + |codeA|] == SideBSeparator
    ensures EndsWith(p, codeB)
  {
    CriticHead + codeA + SideBSeparator + codeB
  }

  const JudgeHead: string := "[A]\n"
  const CritiqueHeader: string := "\n\nCritique:\n"
  const JudgeTail: string := "\n\nPick winner."

  /** `makeJudgePrompt`: code A, code B and the critique, in that order and
      each behind its own header, closing with "\n\nPick winner.". */
  function JudgePrompt(codeA: string, codeB: string, critique: string): (p: string)
    ensures |p| == |codeA| + |codeB| + |critique| + 36
    ensures StartsWith(p, JudgeHead) && p[4..4 + |codeA|] == codeA
    ensures p[4 + |codeA|..10 + |codeA|] == SideBSeparator
    ensures p[10 + |codeA|..10 + |codeA| + |codeB|] == codeB
    ensures p[10 + |codeA| + |codeB|..22 + |codeA| + |codeB|] == CritiqueHeader
    ensures p[22 + |codeA| + |codeB|..22 + |codeA| + |codeB| + |critique|] == critique
    ensures EndsWith(p, JudgeTail)
  {
    JudgeHead + codeA + SideBSeparator + codeB + CritiqueHeader + critique + JudgeTail
  }

  /** The judge sees the critique text itself: for the same two codes,
      different critique texts give different judge prompts. */
  lemma JudgePromptSeparatesCritiques(codeA: string, codeB: string, c1: string, c2: string)
    ensures JudgePrompt(codeA, codeB, c1) == JudgePrompt(codeA, codeB, c2) <==> c1 == c2
  {
    var p1, p2 := JudgePrompt(codeA, codeB, c1), JudgePrompt(codeA, codeB, c2);
    var k := 22 + |codeA| + |codeB|;
    if p1 == p2 {
      assert |c1| == |c2|;
      assert c1 == p1[k..k + |c1|] == p2[k..k + |c2|] == c2;
    }
  }
}
