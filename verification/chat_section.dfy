/** The chat component: a one-line query, a transcript of user and model messages that only
    grows, suggestion buttons that fill the query, and an error slot. Each exchange is a
    `/qa/` request carrying the query exactly as typed. */
module ChatSection {
  import opened Optional
  import opened Text
  import opened Requests
  import opened Panels
  import QaSection

  const BlankMessage: string := "Please enter a message."
  const ChatFailed: string := "Failed to get answer."

  const Suggestions: seq<string> := [
    "Summarize the key points of this document.",
    "What is the main conclusion?",
    "Explain [a concept from the PDF] in simple terms."]

  /** The checks and the form of the chat's handler: the query first, then the model; the
      same three fields, in the same order, as the question-answering panel. */
  const ChatPanel: Config := Config(
    "/qa/",
    [Field(FreeText, "")],
    Some(Required(0, BlankMessage)),
    QaSection.QaLayout,
    "answer",
    ChatFailed)

  datatype Sender = User | Model

  /** A transcript entry; the clock-based ids are not modelled. */
  datatype Message = Message(text: string, sender: Sender)

  /** Every model message answers the user message just before it. */
  ghost predicate RepliesFollowQuestions(msgs: seq<Message>) {
    forall i :: 0 <= i < |msgs| && msgs[i].sender == Model ==> 0 < i && msgs[i - 1].sender == User
  }

  function CountOf(msgs: seq<Message>, s: Sender): nat {
    if msgs == [] then 0
    else CountOf(msgs[..|msgs| - 1], s) + (if msgs[|msgs| - 1].sender == s then 1 else 0)
  }

  /** There are never more replies than questions. */
  lemma {:induction false} RepliesNeverOutnumber(msgs: seq<Message>)
    requires RepliesFollowQuestions(msgs)
    ensures CountOf(msgs, Model) <= CountOf(msgs, User)
  {
    if msgs != [] {
      var n := |msgs|;
      var p := msgs[..n - 1];
      assert RepliesFollowQuestions(p) by {
        forall i | 0 <= i < |p| && p[i].sender == Model
          ensures 0 < i && p[i - 1].sender == User
        {
          assert msgs[i] == p[i];
        }
      }
      if msgs[n - 1].sender == Model {
        var q := msgs[..n - 2];
        assert p[..n - 2] == q;
        assert RepliesFollowQuestions(q) by {
          forall i | 0 <= i < |q| && q[i].sender == Model
            ensures 0 < i && q[i - 1].sender == User
          {
            assert msgs[i] == q[i];
          }
        }
        RepliesNeverOutnumber(q);
        assert p[n - 2] == msgs[n - 2];
      } else {
        RepliesNeverOutnumber(p);
      }
    }
  }

  /** When every question has been answered, the transcript is question, reply, question,
      reply, ...: its length is twice the number of exchanges and senders alternate. */
  lemma {:induction false} AnsweredTranscriptAlternates(msgs: seq<Message>)
    requires RepliesFollowQuestions(msgs)
    requires CountOf(msgs, Model) == CountOf(msgs, User)
    ensures |msgs| == 2 * CountOf(msgs, Model)
    ensures forall i :: 0 <= i < |msgs| ==> msgs[i].sender == if i % 2 == 0 then User else Model
  {
    if msgs != [] {
      var n := |msgs|;
      var p := msgs[..n - 1];
      assert RepliesFollowQuestions(p) by {
        forall i | 0 <= i < |p| && p[i].sender == Model
          ensures 0 < i && p[i - 1].sender == User
        {
          assert msgs[i] == p[i];
        }
      }
      if msgs[n - 1].sender == User {
        RepliesNeverOutnumber(p);
        assert false;
      }
      var q := msgs[..n - 2];
      assert p[..n - 2] == q;
      assert p[n - 2] == msgs[n - 2];
      assert RepliesFollowQuestions(q) by {
        forall i | 0 <= i < |q| && q[i].sender == Model
          ensures 0 < i && q[i - 1].sender == User
        {
          assert msgs[i] == q[i];
        }
      }
      AnsweredTranscriptAlternates(q);
      forall i | 0 <= i < n
        ensures msgs[i].sender == if i % 2 == 0 then User else Model
      {
        if i < n - 2 {
          assert msgs[i] == q[i];
        }
      }
    }
  }

  /** A new question keeps every reply after its question. */
  lemma AskKeepsOrder(msgs: seq<Message>, text: string)
    requires RepliesFollowQuestions(msgs)
    ensures RepliesFollowQuestions(msgs + [Message(text, User)])
  {
    var m := msgs + [Message(text, User)];
    forall i | 0 <= i < |m| && m[i].sender == Model
      ensures 0 < i && m[i - 1].sender == User
    {
      assert m[i] == msgs[i];
    }
  }

  /** A reply to a pending question keeps every reply after its question. */
  lemma ReplyKeepsOrder(msgs: seq<Message>, text: string)
    requires RepliesFollowQuestions(msgs)
    requires msgs != [] && msgs[|msgs| - 1].sender == User
    ensures RepliesFollowQuestions(msgs + [Message(text, Model)])
  {
    var m := msgs + [Message(text, Model)];
    forall i | 0 <= i < |m| && m[i].sender == Model
      ensures 0 < i && m[i - 1].sender == User
    {
      if i < |msgs| {
        assert m[i] == msgs[i];
      }
    }
  }

  /** The chat validates like a panel whose one required input is the query, and its send
      button follows the same rule. */
  lemma Validation(query: string, modelName: string, isLoading: bool)
    ensures WellFormed(ChatPanel)
    ensures Validate(ChatPanel, [query], modelName) ==
      if IsBlank(JavaScript, query) then Some(BlankMessage)
      else if IsBlank(JavaScript, modelName) then Some(ModelMissing)
      else None
    ensures SubmitEnabled(ChatPanel, [query], isLoading, modelName) <==>
      !isLoading && !IsBlank(JavaScript, query) && !IsBlank(JavaScript, modelName)
  {
  }

  /** A chat message goes out exactly as a question from the question-answering panel would:
      to `/qa/`, with the file id, the raw query and the model, in that order. */
  lemma RequestShape(query: string, fileId: string, modelName: string)
    ensures WellFormed(ChatPanel)
    ensures BuildRequest(ChatPanel, [query], fileId, modelName) ==
      BuildRequest(QaSection.QaPanel, [query], fileId, modelName)
    ensures BuildRequest(ChatPanel, [query], fileId, modelName) ==
      Request(ApiBaseUrl + "/qa/", [("file_id", fileId), ("query", query), ("model_name", modelName)])
  {
    QaSection.RequestShape(query, fileId, modelName);
  }

  class Chat {
    /** The handler's checks and form; always `ChatPanel`. */
    const config: Config
    var query: string
    var messages: seq<Message>
    var isLoading: bool
    var error: Option<string>

    /** Replies only follow questions; while a request is in flight the question is the last
        message and the error slot is clear. */
    ghost predicate Valid()
      reads this
    {
      && WellFormed(config) && |config.fields| == 1
      && RepliesFollowQuestions(messages)
      && (isLoading ==> messages != [] && messages[|messages| - 1].sender == User && error == None)
    }

    predicate CanSend(modelName: string)
      reads this
      requires Valid()
    {
      SubmitEnabled(config, [query], isLoading, modelName)
    }

    constructor ()
      ensures Valid()
      ensures config == ChatPanel
      ensures query == "" && messages == [] && !isLoading && error == None
    {
      config := ChatPanel;
      query := "";
      messages := [];
      isLoading := false;
      error := None;
    }

    /** The input's `onChange`. */
    method TypeQuery(v: string)
      requires Valid()
      modifies this
      ensures Valid() && query == v
      ensures messages == old(messages) && isLoading == old(isLoading) && error == old(error)
    {
      query := v;
    }

    /** A suggestion button puts its text in the query and touches nothing else. */
    method ChooseSuggestion(i: nat)
      requires Valid() && i < |Suggestions|
      modifies this
      ensures Valid() && query == Suggestions[i]
      ensures messages == old(messages) && isLoading == old(isLoading) && error == old(error)
    {
      query := Suggestions[i];
    }

    /** The handler up to its `await`. A failed check sets only the error. Otherwise loading
        starts, the error clears, the raw query joins the transcript as the user's message,
        and the request is returned. Controls are disabled while loading. */
    method Submit(fileId: string, modelName: string) returns (req: Option<Request>)
      requires Valid() && !isLoading
      modifies this
      ensures Valid() && query == old(query)
      ensures Validate(config, [query], modelName).Some? ==>
        && req == None
        && error == Validate(config, [query], modelName)
        && messages == old(messages) && !isLoading
      ensures Validate(config, [query], modelName) == None ==>
        && req == Some(BuildRequest(config, [query], fileId, modelName))
        && messages == old(messages) + [Message(query, User)]
        && isLoading && error == None
    {
      var invalid := Validate(config, [query], modelName);
      if invalid.Some? {
        error := invalid;
        return None;
      }
      isLoading := true;
      error := None;
      AskKeepsOrder(messages, query);
      messages := messages + [Message(query, User)];
      req := Some(BuildRequest(config, [query], fileId, modelName));
    }

    /** The rest of the handler: an answer joins the transcript as the model's message, a
        failure fills the error slot instead; `finally` ends loading and empties the query. */
    method Resolve(outcome: Outcome)
      requires Valid() && isLoading
      modifies this
      ensures Valid() && !isLoading && query == ""
      ensures outcome.Answered? ==>
        messages == old(messages) + [Message(outcome.payload, Model)] && error == None
      ensures outcome.Failed? ==>
        messages == old(messages) && error == Some(FailureText(outcome.detail, config.failureDefault))
    {
      match outcome {
        case Answered(answer) =>
          ReplyKeepsOrder(messages, answer);
          messages := messages + [Message(answer, Model)];
        case Failed(detail) =>
          error := Some(FailureText(detail, config.failureDefault));
      }
      isLoading := false;
      query := "";
    }
  }
}
