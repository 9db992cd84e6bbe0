/**
 * The AI-analysis controls of the details panel as a small state machine: the
 * privacy gate, the configuration check, the analysis itself (its reply and the
 * JSON parser are parameters), the privacy dialog's buttons and the forwarding
 * of an accepted suggestion.
 */
module DetailsPanel {
  import opened Wrappers
  import opened Types
  import LlmService

  const ConfigureFirst := "Please configure your AI provider in the Settings tab first."

  /** The panel's state, with the props it reads. */
  class Panel {
    var events: seq<RelationshipEvent>
    var llmConfig: Option<LLMConfig>
    /** The `privacyAccepted` prop of the render whose handlers run. */
    var privacyAccepted: bool
    /** The parent's acceptance flag, which `onPrivacyAccepted` sets and the next render passes down. */
    var acceptedByParent: bool
    var analyzingEventId: Option<string>
    var analysisResults: map<string, AIAnalysisResult>
    var analysisError: Option<string>
    var showPrivacyDialog: bool
    var pendingAnalysisEventId: Option<string>
    /** The event descriptions sent to a provider, in order. */
    ghost var sentDescriptions: seq<string>

    constructor(events: seq<RelationshipEvent>, llmConfig: Option<LLMConfig>, privacyAccepted: bool)
      ensures this.events == events && this.llmConfig == llmConfig
      ensures this.privacyAccepted == privacyAccepted && acceptedByParent == privacyAccepted
      ensures analyzingEventId == None && analysisResults == map[] && analysisError == None
      ensures !showPrivacyDialog && pendingAnalysisEventId == None && sentDescriptions == []
    {
      this.events, this.llmConfig := events, llmConfig;
      this.privacyAccepted, acceptedByParent := privacyAccepted, privacyAccepted;
      analyzingEventId, analysisResults, analysisError := None, map[], None;
      showPrivacyDialog, pendingAnalysisEventId := false, None;
      sentDescriptions := [];
    }

    /** Whether the configuration lets an analysis start (`llmConfig && llmConfig.apiKey`). */
    predicate Configured()
      reads this
    {
      llmConfig.Some? && llmConfig.value.apiKey != ""
    }

    /**
     * `handleAnalyze` with the acceptance flag the running closure holds: without
     * acceptance the event waits behind the privacy dialog; without a configured
     * key an error asks for the settings; otherwise the event is analysed, its
     * result stored under its ID or the failure shown, and the busy marker cleared
     * either way.
     */
    method AnalyzeWith(accepted: bool, event: RelationshipEvent, reply: LlmService.HttpReply, parse: string -> Option<LlmService.Json>)
      modifies this`pendingAnalysisEventId, this`showPrivacyDialog, this`analysisError, this`analyzingEventId,
               this`analysisResults, this`sentDescriptions
      ensures !accepted ==>
        && pendingAnalysisEventId == Some(event.ID) && showPrivacyDialog
        && analysisResults == old(analysisResults) && analysisError == old(analysisError)
        && analyzingEventId == old(analyzingEventId) && sentDescriptions == old(sentDescriptions)
      ensures accepted && !Configured() ==>
        && analysisError == Some(ConfigureFirst)
        && analysisResults == old(analysisResults) && analyzingEventId == old(analyzingEventId)
        && sentDescriptions == old(sentDescriptions)
        && pendingAnalysisEventId == old(pendingAnalysisEventId) && showPrivacyDialog == old(showPrivacyDialog)
      ensures accepted && Configured() ==>
        var r := LlmService.AnalyzeEvent(llmConfig.value, reply, parse);
        && analyzingEventId == None
        && (r.Ok? ==> analysisResults == old(analysisResults)[event.ID := r.value] && analysisError == None)
        && (r.Err? ==> analysisResults == old(analysisResults) && analysisError == Some(r.message))
        && sentDescriptions == old(sentDescriptions) + (if LlmService.ProviderOf(llmConfig.value.provider).Some? then [event.Description] else [])
        && pendingAnalysisEventId == old(pendingAnalysisEventId) && showPrivacyDialog == old(showPrivacyDialog)
    {
      if !accepted {
        pendingAnalysisEventId := Some(event.ID);
        showPrivacyDialog := true;
        return;
      }
      if llmConfig.None? || llmConfig.value.apiKey == "" {
        analysisError := Some(ConfigureFirst);
        return;
      }
      RunAnalysis(event, llmConfig.value, reply, parse);
    }

    /**
     * The analysis itself: busy while it runs, the result stored under the event's
     * ID or the failure shown, and the busy marker cleared either way. The request
     * carries the event's description and goes out only to a supported provider.
     */
    method RunAnalysis(event: RelationshipEvent, config: LLMConfig, reply: LlmService.HttpReply, parse: string -> Option<LlmService.Json>)
      modifies this`analysisError, this`analyzingEventId, this`analysisResults, this`sentDescriptions
      ensures var r := LlmService.AnalyzeEvent(config, reply, parse);
        && analyzingEventId == None
        && (r.Ok? ==> analysisResults == old(analysisResults)[event.ID := r.value] && analysisError == None)
        && (r.Err? ==> analysisResults == old(analysisResults) && analysisError == Some(r.message))
        && sentDescriptions == old(sentDescriptions) + (if LlmService.ProviderOf(config.provider).Some? then [event.Description] else [])
    {
      analyzingEventId := Some(event.ID);
      analysisError := None;
      if LlmService.ProviderOf(config.provider).Some? {
        sentDescriptions := sentDescriptions + [event.Description];
      }
      var result := LlmService.AnalyzeEvent(config, reply, parse);
      if result.Ok? {
        analysisResults := analysisResults[event.ID := result.value];
      } else {
        analysisError := Some(result.message);
      }
      analyzingEventId := None;
    }

    /** `handleAnalyze`, clicked in the current render. */
    method HandleAnalyze(event: RelationshipEvent, reply: LlmService.HttpReply, parse: string -> Option<LlmService.Json>)
      modifies this`pendingAnalysisEventId, this`showPrivacyDialog, this`analysisError, this`analyzingEventId,
               this`analysisResults, this`sentDescriptions
      ensures !privacyAccepted ==>
        && pendingAnalysisEventId == Some(event.ID) && showPrivacyDialog
        && analysisResults == old(analysisResults) && sentDescriptions == old(sentDescriptions)
      ensures privacyAccepted && !Configured() ==>
        analysisError == Some(ConfigureFirst) && analysisResults == old(analysisResults) && sentDescriptions == old(sentDescriptions)
      ensures privacyAccepted && Configured() ==>
        var r := LlmService.AnalyzeEvent(llmConfig.value, reply, parse);
        && analyzingEventId == None
        && (r.Ok? ==> analysisResults == old(analysisResults)[event.ID := r.value] && analysisError == None)
        && (r.Err? ==> analysisResults == old(analysisResults) && analysisError == Some(r.message))
    {
      AnalyzeWith(privacyAccepted, event, reply, parse);
    }

    /** Whether an event waits for the privacy acceptance (an empty ID counts as none). */
    predicate HasPending()
      reads this
    {
      pendingAnalysisEventId.Some? && pendingAnalysisEventId.value != ""
    }

    /** The pending event, when an event waits and an event has its ID. */
    function PendingEvent(): (e: Option<RelationshipEvent>)
      reads this
      ensures e.Some? ==> HasPending() && e.value in events && e.value.ID == pendingAnalysisEventId.value
    {
      if HasPending() then
        var i := FirstIndex(EventIds(events), pendingAnalysisEventId.value);
        if i < |events| then Some(events[i]) else None
      else None
    }

    /**
     * `handlePrivacyAccept` as the source runs it: the parent records the
     * acceptance, but the pending event goes through `handleAnalyze` of the same
     * render, whose flag is still the one from before the acceptance.
     */
    method HandlePrivacyAcceptAsWritten(reply: LlmService.HttpReply, parse: string -> Option<LlmService.Json>)
      modifies this`acceptedByParent, this`pendingAnalysisEventId, this`showPrivacyDialog, this`analysisError,
               this`analyzingEventId, this`analysisResults, this`sentDescriptions
      ensures acceptedByParent
      ensures pendingAnalysisEventId == (if old(HasPending()) then None else old(pendingAnalysisEventId))
      ensures old(PendingEvent()).None? ==> !showPrivacyDialog && analysisResults == old(analysisResults)
      ensures old(PendingEvent()).Some? && !old(privacyAccepted) ==>
        && showPrivacyDialog
        && analysisResults == old(analysisResults) && analysisError == old(analysisError)
        && sentDescriptions == old(sentDescriptions)
    {
      var captured := privacyAccepted;
      var pending := PendingEvent();
      acceptedByParent := true;
      showPrivacyDialog := false;
      if HasPending() {
        if pending.Some? {
          AnalyzeWith(captured, pending.value, reply, parse);
        }
        pendingAnalysisEventId := None;
      }
    }

    /**
     * `handlePrivacyAccept` as intended: the dialog closes and the pending event
     * is analysed as the accepted user asked.
     */
    method HandlePrivacyAccept(reply: LlmService.HttpReply, parse: string -> Option<LlmService.Json>)
      modifies this`acceptedByParent, this`pendingAnalysisEventId, this`showPrivacyDialog, this`analysisError,
               this`analyzingEventId, this`analysisResults, this`sentDescriptions
      ensures acceptedByParent && !showPrivacyDialog
      ensures pendingAnalysisEventId == (if old(HasPending()) then None else old(pendingAnalysisEventId))
      ensures old(PendingEvent()).None? ==> analysisResults == old(analysisResults) && sentDescriptions == old(sentDescriptions)
      ensures old(PendingEvent()).Some? && Configured() ==>
        var e := old(PendingEvent()).value;
        var r := LlmService.AnalyzeEvent(llmConfig.value, reply, parse);
        && analyzingEventId == None
        && (r.Ok? ==> analysisResults == old(analysisResults)[e.ID := r.value] && analysisError == None)
        && (r.Err? ==> analysisResults == old(analysisResults) && analysisError == Some(r.message))
      ensures old(PendingEvent()).Some? && !Configured() ==>
        analysisError == Some(ConfigureFirst) && analysisResults == old(analysisResults)
    {
      var pending := PendingEvent();
      acceptedByParent := true;
      showPrivacyDialog := false;
      if HasPending() {
        if pending.Some? {
          AnalyzeWith(true, pending.value, reply, parse);
        }
        pendingAnalysisEventId := None;
      }
    }

    /** Cancel, or closing the dialog otherwise: the dialog closes and the pending event is dropped unanalysed. */
    method DismissPrivacyDialog()
      modifies this`showPrivacyDialog, this`pendingAnalysisEventId
      ensures !showPrivacyDialog && pendingAnalysisEventId == None
    {
      showPrivacyDialog := false;
      pendingAnalysisEventId := None;
    }

    /** The next render: the acceptance the parent recorded arrives as the `privacyAccepted` prop. */
    method Rerender()
      modifies this`privacyAccepted
      ensures privacyAccepted == acceptedByParent
    {
      privacyAccepted := acceptedByParent;
    }

    /**
     * `handleApply`: nothing without a stored result; otherwise the result's type,
     * impact and severity are forwarded for the event.
     */
    method HandleApply(eventId: string) returns (forwarded: Option<(string, EventFields)>)
      ensures eventId !in analysisResults ==> forwarded == None
      ensures eventId in analysisResults ==>
        var r := analysisResults[eventId];
        forwarded == Some((eventId, EventFields(Some(r.eventType), Some(r.impact), Some(r.severity))))
    {
      if eventId !in analysisResults {
        return None;
      }
      var result := analysisResults[eventId];
      forwarded := Some((eventId, EventFields(Some(result.eventType), Some(result.impact), Some(result.severity))));
    }
  }

  // ---- The privacy-accept discrepancy on a concrete run -----------------------------------------------

  const SampleAnswer := AIAnalysisResult("Conflict", "Negative", 7, "Tension over budget.")

  /** A JSON parser that reads every text as one fixed, valid answer. */
  function FixedAnswer(s: string): Option<LlmService.Json> {
    Some(LlmService.ResultJson(SampleAnswer))
  }

  const SampleConfig := LLMConfig("anthropic", "claude-3-haiku", "sk-key")

  /** The body of an Anthropic reply carrying the answer text. */
  function AnthropicBody(text: string): LlmService.Json {
    LlmService.JObj(map["content" := LlmService.JArr([LlmService.JObj(map["text" := LlmService.JStr(text)])])])
  }

  /** A successful Anthropic reply carrying some answer text. */
  const OkReply: LlmService.HttpReply := LlmService.Reply(200, "OK", Some(AnthropicBody("{}")))

  const SampleEvent := RelationshipEvent("E1", "2024-05-01", "P1, P2", "Meeting", "Budget review", "Neutral", 3)

  /** The sample reply analyses to the sample answer. */
  lemma SampleReplyAnalyses()
    ensures LlmService.AnalyzeEvent(SampleConfig, OkReply, FixedAnswer) == Ok(SampleAnswer)
  {
    AnthropicReplyAnalyses("{}", "sk-key");
  }

  /** A successful Anthropic reply, whatever its non-empty answer text, analyses to the fixed parser's answer. */
  lemma AnthropicReplyAnalyses(text: string, key: string)
    requires text != ""
    ensures var config := LLMConfig("anthropic", "claude-3-haiku", key);
      LlmService.AnalyzeEvent(config, LlmService.Reply(200, "OK", Some(AnthropicBody(text))), FixedAnswer) == Ok(SampleAnswer)
  {
    AnthropicContentResult(text);
    assert LlmService.ProviderOf("anthropic") == Some(Provider.Anthropic);
  }

  /** The non-empty answer text of an Anthropic reply body goes to the parser. */
  lemma AnthropicContentResult(text: string)
    requires text != ""
    ensures LlmService.ContentResult(Provider.Anthropic, AnthropicBody(text), FixedAnswer) == Ok(SampleAnswer)
  {
    AnthropicContent(text);
    FixedAnswerParses(text);
    assert LlmService.Truthy(Some(LlmService.JStr(text)));
  }

  /** Whatever the answer text, the fixed parser makes it the sample answer. */
  lemma FixedAnswerParses(raw: string)
    ensures LlmService.ParseResponse(raw, FixedAnswer) == Ok(SampleAnswer)
  {
    LlmService.NormaliseValidRoundTrip(SampleAnswer);
  }

  /** The answer text sits where an Anthropic reply carries it. */
  lemma AnthropicContent(text: string)
    ensures LlmService.FollowPath(Some(AnthropicBody(text)), LlmService.ContentPath(Provider.Anthropic)) == Some(LlmService.JStr(text))
  {
    var data := AnthropicBody(text);
    var item := LlmService.JObj(map["text" := LlmService.JStr(text)]);
    var path := LlmService.ContentPath(Provider.Anthropic);
    assert LlmService.Member(data, "content") == Some(LlmService.JArr([item]));
    assert LlmService.Member(item, "text") == Some(LlmService.JStr(text));
    assert LlmService.FollowPath(Some(data), path) == LlmService.FollowPath(Some(LlmService.JArr([item])), path[1..]);
    assert LlmService.FollowPath(Some(LlmService.JArr([item])), path[1..]) == LlmService.FollowPath(Some(item), path[2..]);
    assert LlmService.FollowPath(Some(item), path[2..]) == LlmService.FollowPath(Some(LlmService.JStr(text)), path[3..]);
  }

  /**
   * With privacy not yet accepted: Analyse, then "I Understand, Continue". As
   * written, the dialog opens again, the pending event is gone and no analysis
   * was made.
   */
  method StaleAcceptDropsAnalysis() returns (dialogOpen: bool, pending: Option<string>, analysed: bool)
    ensures dialogOpen && pending == None && !analysed
  {
    var panel := new Panel([SampleEvent], Some(SampleConfig), false);
    panel.HandleAnalyze(SampleEvent, OkReply, FixedAnswer);
    assert panel.PendingEvent() == Some(SampleEvent);
    panel.HandlePrivacyAcceptAsWritten(OkReply, FixedAnswer);
    return panel.showPrivacyDialog, panel.pendingAnalysisEventId, SampleEvent.ID in panel.analysisResults;
  }

  /** The same clicks with the intended handler: the dialog closes and the event's analysis is stored. */
  method AcceptRunsAnalysis() returns (dialogOpen: bool, pending: Option<string>, analysed: bool)
    ensures !dialogOpen && pending == None && analysed
  {
    var panel := new Panel([SampleEvent], Some(SampleConfig), false);
    panel.HandleAnalyze(SampleEvent, OkReply, FixedAnswer);
    assert panel.PendingEvent() == Some(SampleEvent);
    assert panel.Configured();
    SampleReplyAnalyses();
    panel.HandlePrivacyAccept(OkReply, FixedAnswer);
    assert panel.analysisResults == map[SampleEvent.ID := SampleAnswer];
    return panel.showPrivacyDialog, panel.pendingAnalysisEventId, SampleEvent.ID in panel.analysisResults;
  }

  /**
   * After the handler as written, the parent's acceptance reaches the next
   * render, and a second Analyse click there runs the analysis.
   */
  method RetryAfterRerenderAnalyses() returns (accepted: bool, analysed: bool)
    ensures accepted && analysed
  {
    SampleReplyAnalyses();
    var panel := StaleAcceptedPanel();
    panel.Rerender();
    assert panel.Configured();
    panel.HandleAnalyze(SampleEvent, OkReply, FixedAnswer);
    return panel.privacyAccepted, SampleEvent.ID in panel.analysisResults;
  }

  /** A panel after an Analyse click before acceptance and the handler as written: accepted above, not yet below. */
  method StaleAcceptedPanel() returns (panel: Panel)
    ensures fresh(panel)
    ensures panel.acceptedByParent && !panel.privacyAccepted && panel.llmConfig == Some(SampleConfig)
  {
    panel := new Panel([SampleEvent], Some(SampleConfig), false);
    panel.HandleAnalyze(SampleEvent, OkReply, FixedAnswer);
    panel.HandlePrivacyAcceptAsWritten(OkReply, FixedAnswer);
  }
}
