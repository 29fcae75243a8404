/** The dispute arbitration form (frontend/src/components/DisputeArbitration.tsx):
    editing each party's evidence list, the checks and filtering done before
    the analysis request is sent, and the colour given to the returned
    confidence. */
module DisputeForm {
  import opened Base
  import opened Text
  import opened Arbitration

  datatype Party = Buyer | Seller

  /** The fields of an evidence entry that `updateEvidence` can set. */
  datatype EvidenceField = KindField | ContentField | DescriptionField

  /** The fields of the form that the inputs edit. */
  datatype FormField = AmountField | DescriptionText | DisputeTypeField | BuyerClaim | SellerResponse | ChatHistory

  /** The body of the analysis request. */
  datatype Payload = Payload(
    amount: string,
    description: string,
    disputeType: string,
    buyerClaim: string,
    sellerResponse: string,
    chatHistory: seq<string>,
    buyerEvidence: seq<Evidence>,
    sellerEvidence: seq<Evidence>)

  datatype Alert = MissingRequiredFields | ServiceUnavailable

  datatype Color = Green | Amber | Red

  /** The `type` select's value as an evidence kind. */
  function KindFromText(value: string): EvidenceKind
  {
    if value == "text" then TextEvidence
    else if value == "image" then ImageEvidence
    else if value == "tracking" then TrackingEvidence
    else UnknownKind
  }

  /** `[...list, {type, content: '', description: ''}]`. */
  function WithBlankEvidence(list: seq<Evidence>, kind: EvidenceKind): (r: seq<Evidence>)
    ensures |r| == |list| + 1 && r[..|list|] == list
    ensures r[|list|] == Evidence(kind, "", "")
  {
    list + [Evidence(kind, "", "")]
  }

  /** `list.filter((_, i) => i !== index)`, written as the filter it is. */
  function WithoutIndex(list: seq<Evidence>, index: int): seq<Evidence>
    decreases |list|
  {
    if list == [] then []
    else if index == 0 then WithoutIndex(list[1..], index - 1)
    else [list[0]] + WithoutIndex(list[1..], index - 1)
  }

  /** Removing an index in range drops exactly that entry and keeps the
      order of the rest. */
  lemma {:induction false} WithoutIndexSlices(list: seq<Evidence>, index: int)
    requires 0 <= index < |list|
    ensures WithoutIndex(list, index) == list[..index] + list[index + 1..]
    decreases |list|
  {
    if index == 0 {
      WithoutIndexOutside(list[1..], -1);
    } else {
      WithoutIndexSlices(list[1..], index - 1);
      calc {
        WithoutIndex(list, index);
        [list[0]] + WithoutIndex(list[1..], index - 1);
        [list[0]] + (list[1..][..index - 1] + list[1..][index..]);
        { assert [list[0]] + list[1..][..index - 1] == list[..index]; }
        list[..index] + list[index + 1..];
      }
    }
  }

  /** An index outside the list removes nothing. */
  lemma {:induction false} WithoutIndexOutside(list: seq<Evidence>, index: int)
    requires !(0 <= index < |list|)
    ensures WithoutIndex(list, index) == list
    decreases |list|
  {
    if list != [] {
      WithoutIndexOutside(list[1..], index - 1);
      assert list == [list[0]] + list[1..];
    }
  }

  /** `field: value` set on one entry: the named field takes the value,
      the other two keep theirs. */
  function SetField(e: Evidence, field: EvidenceField, value: string): (r: Evidence)
    ensures r.kind == (if field == KindField then KindFromText(value) else e.kind)
    ensures r.content == (if field == ContentField then value else e.content)
    ensures r.description == (if field == DescriptionField then value else e.description)
  {
    match field
    case KindField => e.(kind := KindFromText(value))
    case ContentField => e.(content := value)
    case DescriptionField => e.(description := value)
  }

  /** Of two edits of the same field the later one wins; edits of
      different fields can be made in either order. */
  lemma SetFieldLastWins(e: Evidence, f: EvidenceField, g: EvidenceField, v: string, w: string)
    ensures SetField(SetField(e, f, v), f, w) == SetField(e, f, w)
    ensures f != g ==> SetField(SetField(e, f, v), g, w) == SetField(SetField(e, g, w), f, v)
  {
  }

  /** `line.trim()` is truthy: the line is not all whitespace
      (HasTextIffNotBlank ties this to `Trim`). */
  predicate HasText(line: string)
  {
    !IsBlank(line)
  }

  /** `chat_history.split('\n').filter(line => line.trim())`. */
  function ChatLines(lines: seq<string>): (r: seq<string>)
    ensures |r| <= |lines|
  {
    if lines == [] then []
    else (if HasText(lines[0]) then [lines[0]] else []) + ChatLines(lines[1..])
  }

  /** A line is sent exactly when it is one of the lines of the text and
      its trimmed form is not empty. */
  lemma {:induction false} ChatLinesKeepTextLines(lines: seq<string>)
    ensures forall l :: l in ChatLines(lines) <==> l in lines && HasText(l)
  {
    if lines != [] {
      ChatLinesKeepTextLines(lines[1..]);
      assert lines == [lines[0]] + lines[1..];
    }
  }

  /** A line survives the filter exactly when trimming it leaves something. */
  lemma HasTextIffNotBlank(line: string)
    ensures HasText(line) <==> Trim(line) != ""
  {
    TrimEmptyIffBlank(line);
  }

  /** No sent line holds a line break. */
  lemma ChatLinesHaveNoBreaks(text: string)
    ensures forall l :: l in ChatLines(Split(text, '\n')) ==> '\n' !in l
  {
    ChatLinesKeepTextLines(Split(text, '\n'));
  }

  /** `list.filter(e => e.content)`. */
  function WithContent(list: seq<Evidence>): (r: seq<Evidence>)
    ensures |r| <= |list|
    ensures forall e :: e in r <==> e in list && e.content != ""
  {
    if list == [] then []
    else (if list[0].content != "" then [list[0]] else []) + WithContent(list[1..])
  }

  /** `getConfidenceColor`. */
  function ConfidenceColor(confidence: real): Color
  {
    if confidence >= 80.0 then Green
    else if confidence >= 60.0 then Amber
    else Red
  }

  /** The colour shown agrees with the tier the service used to pick its
      first recommendation: green for high, amber for medium, red for low. */
  lemma ConfidenceColorFollowsTier(confidence: real)
    ensures ConfidenceColor(confidence) == Green <==> TierOf(confidence) == High
    ensures ConfidenceColor(confidence) == Amber <==> TierOf(confidence) == Medium
    ensures ConfidenceColor(confidence) == Red <==> TierOf(confidence) == Low
  {
  }

  class Form {
    var amount: string
    var description: string
    var disputeType: string
    var buyerClaim: string
    var sellerResponse: string
    var chatHistory: string
    var buyerEvidence: seq<Evidence>
    var sellerEvidence: seq<Evidence>
    var isAnalyzing: bool
    var result: Option<DisputeResponse>
    var alerts: seq<Alert>
    /** Analysis requests sent, oldest first. */
    var requests: seq<Payload>

    constructor ()
      ensures amount == "" && description == "" && disputeType == "not_received"
      ensures buyerClaim == "" && sellerResponse == "" && chatHistory == ""
      ensures buyerEvidence == [] && sellerEvidence == []
      ensures !isAnalyzing && result.None? && alerts == [] && requests == []
    {
      amount := "";
      description := "";
      disputeType := "not_received";
      buyerClaim := "";
      sellerResponse := "";
      chatHistory := "";
      buyerEvidence := [];
      sellerEvidence := [];
      isAnalyzing := false;
      result := None;
      alerts := [];
      requests := [];
    }

    /** The inputs' `setFormData({...formData, field: value})`. */
    method EditField(field: FormField, value: string)
      modifies this`amount, this`description, this`disputeType, this`buyerClaim, this`sellerResponse, this`chatHistory
      ensures amount == (if field == AmountField then value else old(amount))
      ensures description == (if field == DescriptionText then value else old(description))
      ensures disputeType == (if field == DisputeTypeField then value else old(disputeType))
      ensures buyerClaim == (if field == BuyerClaim then value else old(buyerClaim))
      ensures sellerResponse == (if field == SellerResponse then value else old(sellerResponse))
      ensures chatHistory == (if field == ChatHistory then value else old(chatHistory))
    {
      match field
      case AmountField => amount := value;
      case DescriptionText => description := value;
      case DisputeTypeField => disputeType := value;
      case BuyerClaim => buyerClaim := value;
      case SellerResponse => sellerResponse := value;
      case ChatHistory => chatHistory := value;
    }

    /** `addEvidence`: one blank entry of the chosen kind at the end of the
        party's list; the other party's list is untouched. */
    method AddEvidence(party: Party, kind: EvidenceKind)
      modifies this`buyerEvidence, this`sellerEvidence
      ensures party == Buyer ==> buyerEvidence == WithBlankEvidence(old(buyerEvidence), kind) && sellerEvidence == old(sellerEvidence)
      ensures party == Seller ==> sellerEvidence == WithBlankEvidence(old(sellerEvidence), kind) && buyerEvidence == old(buyerEvidence)
    {
      if party == Buyer {
        buyerEvidence := WithBlankEvidence(buyerEvidence, kind);
      } else {
        sellerEvidence := WithBlankEvidence(sellerEvidence, kind);
      }
    }

    /** `updateEvidence`: copies the party's list and replaces the entry at
        `index` by a copy with `field` set; length and every other entry stay. */
    method UpdateEvidence(party: Party, index: int, field: EvidenceField, value: string)
      requires party == Buyer ==> 0 <= index < |buyerEvidence|
      requires party == Seller ==> 0 <= index < |sellerEvidence|
      modifies this`buyerEvidence, this`sellerEvidence
      ensures party == Buyer ==>
        (buyerEvidence == old(buyerEvidence)[index := SetField(old(buyerEvidence)[index], field, value)]
         && sellerEvidence == old(sellerEvidence))
      ensures party == Seller ==>
        (sellerEvidence == old(sellerEvidence)[index := SetField(old(sellerEvidence)[index], field, value)]
         && buyerEvidence == old(buyerEvidence))
    {
      if party == Buyer {
        var updated := buyerEvidence;
        updated := updated[index := SetField(updated[index], field, value)];
        buyerEvidence := updated;
      } else {
        var updated := sellerEvidence;
        updated := updated[index := SetField(updated[index], field, value)];
        sellerEvidence := updated;
      }
    }

    /** `removeEvidence`. */
    method RemoveEvidence(party: Party, index: int)
      modifies this`buyerEvidence, this`sellerEvidence
      ensures party == Buyer ==> buyerEvidence == WithoutIndex(old(buyerEvidence), index) && sellerEvidence == old(sellerEvidence)
      ensures party == Seller ==> sellerEvidence == WithoutIndex(old(sellerEvidence), index) && buyerEvidence == old(buyerEvidence)
    {
      if party == Buyer {
        buyerEvidence := WithoutIndex(buyerEvidence, index);
      } else {
        sellerEvidence := WithoutIndex(sellerEvidence, index);
      }
    }

    /** The request body `handleAnalyze` builds from the current form. */
    function CurrentPayload(): (p: Payload)
      reads this`amount, this`description, this`disputeType, this`buyerClaim, this`sellerResponse
      reads this`chatHistory, this`buyerEvidence, this`sellerEvidence
      ensures p.chatHistory == ChatLines(Split(chatHistory, '\n'))
      ensures p.buyerEvidence == WithContent(buyerEvidence) && p.sellerEvidence == WithContent(sellerEvidence)
    {
      Payload(amount, description, disputeType, buyerClaim, sellerResponse,
        ChatLines(Split(chatHistory, '\n')), WithContent(buyerEvidence), WithContent(sellerEvidence))
    }

    /** `handleAnalyze`. `answer` is the service's response (Err when the
        request fails or the status is not OK). Nothing is sent unless the
        amount and the buyer's claim are filled in. */
    method HandleAnalyze(answer: Result<DisputeResponse>)
      requires !isAnalyzing
      modifies this`isAnalyzing, this`result, this`alerts, this`requests
      ensures !isAnalyzing
      ensures amount == "" || buyerClaim == "" ==>
        requests == old(requests) && alerts == old(alerts) + [MissingRequiredFields] && result == old(result)
      ensures amount != "" && buyerClaim != "" ==> requests == old(requests) + [CurrentPayload()]
      ensures amount != "" && buyerClaim != "" && answer.Ok? ==> result == Some(answer.value) && alerts == old(alerts)
      ensures amount != "" && buyerClaim != "" && answer.Err? ==> result == None && alerts == old(alerts) + [ServiceUnavailable]
    {
      if amount == "" || buyerClaim == "" {
        alerts := alerts + [MissingRequiredFields];
        return;
      }
      isAnalyzing := true;
      result := None;
      var payload := CurrentPayload();
      requests := requests + [payload];
      if answer.Ok? {
        result := Some(answer.value);
      } else {
        alerts := alerts + [ServiceUnavailable];
      }
      isAnalyzing := false;
    }
  }
}
