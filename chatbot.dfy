/** The simulated chatbot of the first page script: a fixed, ordered list of
    keyword rules answers each prompt, and every turn appends the user's
    prompt and the answer to the session's chat history. */
module Chatbot {
  import opened Wrappers
  import opened Text

  datatype Role = User | Assistant

  /** One entry of the chat history, `{"role": ..., "content": ...}`. */
  datatype ChatMessage = ChatMessage(role: Role, content: string)

  const MalnutritionReply: string :=
    "La desnutrición crónica es el retraso en la talla para la edad, resultado de una "
    + "privación nutricional prolongada. Afecta el desarrollo físico y cognitivo de los niños, "
    + "con consecuencias irreversibles si no se atiende a tiempo. La medición principal es la "
    + "talla para la edad, comparada con los estándares de la OMS."

  const FeedingReply: string :=
    "Una alimentación adecuada para prevenir la desnutrición incluye alimentos ricos en "
    + "proteínas (huevos, legumbres, carnes), hierro, zinc (espinacas, lentejas) y vitaminas, "
    + "además de una buena hidratación. La lactancia materna exclusiva es clave hasta los 6 meses."

  const ActionReply: string :=
    "Si sospechas que un niño tiene desnutrición, es vital consultar a un pediatra o "
    + "nutricionista. Una intervención temprana con una dieta balanceada y suplementos puede "
    + "revertir los efectos a corto plazo."

  const FallbackReply: string :=
    "Lo siento, no tengo una respuesta específica para eso. Mi conocimiento se centra en la "
    + "desnutrición crónica infantil y su prevención. Intenta preguntar sobre la importancia "
    + "de la nutrición en la primera infancia o sobre las causas de la desnutrición."

  /** `Reply(lowered)` answers the lower-cased prompt `prompt.lower()`: the
      first keyword group with a keyword in it wins, in this order, and a
      prompt with none of them gets the fallback text. */
  function Reply(lowered: string): (r: string)
    ensures r == FirstMatch(Rules(), lowered, FallbackReply)
  {
    RulesMatch(lowered);
    if Contains(lowered, "desnutrición crónica") then MalnutritionReply
    else if Contains(lowered, "alimentación") || Contains(lowered, "dieta") then FeedingReply
    else if Contains(lowered, "qué hacer") || Contains(lowered, "recomiendas") then ActionReply
    else FallbackReply
  }

  // An independent, table-driven statement of the dispatch.

  /** A keyword group and the answer it selects. */
  datatype Rule = Rule(keywords: seq<string>, response: string)

  /** The chatbot's keyword groups, in the order they are tried. */
  function Rules(): seq<Rule> {
    [Rule(["desnutrición crónica"], MalnutritionReply),
     Rule(["alimentación", "dieta"], FeedingReply),
     Rule(["qué hacer", "recomiendas"], ActionReply)]
  }

  /** What matching each of the chatbot's rules means. */
  lemma RulesMatch(prompt: string)
    ensures |Rules()| == 3
    ensures Matches(Rules()[0], prompt) <==> Contains(prompt, "desnutrición crónica")
    ensures Matches(Rules()[1], prompt) <==> Contains(prompt, "alimentación") || Contains(prompt, "dieta")
    ensures Matches(Rules()[2], prompt) <==> Contains(prompt, "qué hacer") || Contains(prompt, "recomiendas")
    ensures Rules()[0].response == MalnutritionReply
    ensures Rules()[1].response == FeedingReply
    ensures Rules()[2].response == ActionReply
  {
    var rs := Rules();
    assert rs[0].keywords == ["desnutrición crónica"];
    assert rs[1].keywords == ["alimentación", "dieta"];
    assert rs[2].keywords == ["qué hacer", "recomiendas"];
  }

  /** Some keyword of the rule occurs in the prompt. */
  predicate Matches(rule: Rule, prompt: string) {
    exists k | k in rule.keywords :: Contains(prompt, k)
  }

  /** The answer of the first matching rule, or `fallback` when none
      matches. */
  function FirstMatch(rules: seq<Rule>, prompt: string, fallback: string): (r: string)
    ensures (forall j :: 0 <= j < |rules| ==> !Matches(rules[j], prompt)) ==> r == fallback
    ensures forall k :: 0 <= k < |rules| && Matches(rules[k], prompt)
                        && (forall j :: 0 <= j < k ==> !Matches(rules[j], prompt))
                        ==> r == rules[k].response
  {
    if rules == [] then fallback
    else if Matches(rules[0], prompt) then rules[0].response
    else
      var r := FirstMatch(rules[1..], prompt, fallback);
      assert forall k :: 1 <= k < |rules| ==> rules[k] == rules[1..][k - 1];
      r
  }

  /** The history alternates user and assistant entries, starting with the
      user, and ends with an assistant entry. */
  ghost predicate Alternating(messages: seq<ChatMessage>) {
    && |messages| % 2 == 0
    && forall i :: 0 <= i < |messages| ==> messages[i].role == (if i % 2 == 0 then User else Assistant)
  }

  /** A turn keeps the history alternating. */
  lemma TurnKeepsAlternating(messages: seq<ChatMessage>, prompt: string, response: string)
    requires Alternating(messages)
    ensures Alternating(messages + [ChatMessage(User, prompt), ChatMessage(Assistant, response)])
  {
    var n := |messages|;
    var m := messages + [ChatMessage(User, prompt), ChatMessage(Assistant, response)];
    assert n % 2 == 0 && (n + 1) % 2 == 1;
    forall i | 0 <= i < |m|
      ensures m[i].role == (if i % 2 == 0 then User else Assistant)
    {
      if i < n {
        assert m[i] == messages[i];
      }
    }
  }

  /** True when a chat input counts as a submitted prompt: Python's
      truthiness of `st.chat_input(...)`, which is false for `None` and for
      the empty string. */
  predicate Submitted(input: Option<string>) {
    input.Some? && input.value != ""
  }

  /** The session's chat history, `st.session_state.messages`. */
  class ChatSession {
    var messages: seq<ChatMessage>

    ghost predicate Valid()
      reads this
    {
      Alternating(messages)
    }

    /** The history starts empty on the first run of the page. */
    constructor ()
      ensures Valid()
      ensures messages == []
    {
      messages := [];
    }

    /** One run of the chat section. `lower` stands for Python's
        `str.lower`. A submitted prompt appends the user's entry (the prompt
        as typed) and then the assistant's entry (the answer to the
        lower-cased prompt), and returns the answer; no prompt leaves the
        history as it was. */
    method Submit(input: Option<string>, lower: string -> string) returns (response: Option<string>)
      requires Valid()
      modifies this
      ensures Valid()
      ensures Submitted(input) ==>
        && response == Some(Reply(lower(input.value)))
        && messages == old(messages) + [ChatMessage(User, input.value), ChatMessage(Assistant, response.value)]
      ensures !Submitted(input) ==> response == None && messages == old(messages)
    {
      if Submitted(input) {
        var prompt := input.value;
        messages := messages + [ChatMessage(User, prompt)];
        var answer := Reply(lower(prompt));
        messages := messages + [ChatMessage(Assistant, answer)];
        TurnKeepsAlternating(old(messages), prompt, answer);
        response := Some(answer);
      } else {
        response := None;
      }
    }
  }
}
