/**
 * The chat widget's local answers: the keyword responder (`cannedResponse`)
 * and the send action with its empty-input guard (`sendChat`).
 */
module Chat {
  import opened Wrappers
  import opened JsString

  /** The four canned answers, in the order the responder tries them. */
  datatype Reply = Drainage | Acidity | Fertiliser | Unknown

  function ReplyText(r: Reply): (t: string)
  {
    match r
    case Drainage => "ถ้าดินแฉะ แนะนำให้ปรับระบบระบายน้ำและใส่วัสดุกลบเพื่อเพิ่มการซึม"
    case Acidity => "ถ้าค่า pH ต่ำกว่า 6.0 อาจใส่ปูนขาวเพื่อปรับ pH ขึ้น"
    case Fertiliser => "ใช้ปุ๋ยคอกหรือปุ๋ยหมักร่วมกับปุ๋ยสูตรสมดุลตามชนิดพืช"
    case Unknown => "ขอโทษ ผมยังตอบอันนี้ไม่ได้อย่างละเอียด แต่แนะนำให้ส่งรูปหรือระบุปัญหาให้ชัดขึ้นครับ"
  }

  /** The responder's if-chain on the lower-cased query. */
  function CannedReply(q: string): (r: Reply)
  {
    var lq := Lower(q);
    if Includes(lq, "แฉะ") || Includes(lq, "น้ำ") then Drainage
    else if Includes(lq, "ph") || Includes(lq, "กรด") then Acidity
    else if Includes(lq, "ปุ๋ย") then Fertiliser
    else Unknown
  }

  /** `cannedResponse(q)`: the text of the chosen answer. */
  function CannedResponse(q: string): (t: string)
  {
    ReplyText(CannedReply(q))
  }

  // A reference formulation of the responder: an ordered rule table, first match wins.

  /** A rule fires when the query includes any of its keywords. */
  datatype Rule = Rule(keywords: seq<string>, reply: Reply)

  const Rules: seq<Rule> := [
    Rule(["แฉะ", "น้ำ"], Drainage),
    Rule(["ph", "กรด"], Acidity),
    Rule(["ปุ๋ย"], Fertiliser)
  ]

  predicate Fires(rule: Rule, q: string)
  {
    exists k | k in rule.keywords :: Includes(q, k)
  }

  /** The reply of the first rule that fires, or `Unknown` when none does. */
  function FirstMatch(rules: seq<Rule>, q: string): (r: Reply)
  {
    if rules == [] then Unknown
    else if Fires(rules[0], q) then rules[0].reply
    else FirstMatch(rules[1..], q)
  }

  /** The rule at index j decides when it fires and no earlier rule does. */
  lemma {:induction false} FirstMatchIsFirstFiring(rules: seq<Rule>, q: string, j: int)
    requires 0 <= j < |rules| && Fires(rules[j], q)
    requires forall i :: 0 <= i < j ==> !Fires(rules[i], q)
    ensures FirstMatch(rules, q) == rules[j].reply
  {
    if j > 0 {
      assert !Fires(rules[0], q);
      assert rules[1..][j - 1] == rules[j];
      FirstMatchIsFirstFiring(rules[1..], q, j - 1);
    }
  }

  /** When no rule fires the answer is the default one. */
  lemma {:induction false} FirstMatchNoneFires(rules: seq<Rule>, q: string)
    requires forall i :: 0 <= i < |rules| ==> !Fires(rules[i], q)
    ensures FirstMatch(rules, q) == Unknown
  {
    if rules != [] {
      assert !Fires(rules[0], q);
      FirstMatchNoneFires(rules[1..], q);
    }
  }

  /** The responder is the rule table applied to the lower-cased query. */
  lemma CannedReplyFollowsRules(q: string)
    ensures CannedReply(q) == FirstMatch(Rules, Lower(q))
  {
    var lq := Lower(q);
    assert Fires(Rules[0], lq) <==> Includes(lq, "แฉะ") || Includes(lq, "น้ำ") by {
      assert Rules[0].keywords == ["แฉะ", "น้ำ"];
    }
    assert Fires(Rules[1], lq) <==> Includes(lq, "ph") || Includes(lq, "กรด") by {
      assert Rules[1].keywords == ["ph", "กรด"];
    }
    assert Fires(Rules[2], lq) <==> Includes(lq, "ปุ๋ย") by {
      assert Rules[2].keywords == ["ปุ๋ย"];
    }
    if Fires(Rules[0], lq) {
      FirstMatchIsFirstFiring(Rules, lq, 0);
    } else if Fires(Rules[1], lq) {
      FirstMatchIsFirstFiring(Rules, lq, 1);
    } else if Fires(Rules[2], lq) {
      FirstMatchIsFirstFiring(Rules, lq, 2);
    } else {
      FirstMatchNoneFires(Rules, lq);
    }
  }

  /** The keywords written in Thai script, which lower-casing leaves alone. */
  lemma ThaiKeywordsLetterFree()
    ensures NoAsciiLetters("แฉะ") && NoAsciiLetters("น้ำ") && NoAsciiLetters("กรด") && NoAsciiLetters("ปุ๋ย")
  {
  }

  /** A query mentioning wet soil or water gets the drainage answer, whatever else it mentions. */
  lemma DrainageWins(q: string)
    requires Includes(q, "แฉะ") || Includes(q, "น้ำ")
    ensures CannedReply(q) == Drainage
  {
    ThaiKeywordsLetterFree();
    IncludesLetterFree(q, "แฉะ");
    IncludesLetterFree(q, "น้ำ");
  }

  /**
   * "pH" in any letter case, or the word for acid, gets the pH answer unless a
   * drainage keyword is present, even if fertiliser is mentioned too.
   */
  lemma AcidityOutranksFertiliser(q: string, k: string)
    requires !Includes(q, "แฉะ") && !Includes(q, "น้ำ")
    requires (Lower(k) == "ph" && Includes(q, k)) || Includes(q, "กรด")
    ensures CannedReply(q) == Acidity
  {
    ThaiKeywordsLetterFree();
    IncludesLetterFree(q, "แฉะ");
    IncludesLetterFree(q, "น้ำ");
    IncludesLetterFree(q, "กรด");
    if Lower(k) == "ph" && Includes(q, k) {
      IncludesLower(q, k);
    }
  }

  /** The fertiliser answer needs the fertiliser word and neither keyword of the two rules above it. */
  lemma FertiliserIff(q: string)
    ensures CannedReply(q) == Fertiliser <==>
      Includes(q, "ปุ๋ย") && !Includes(q, "แฉะ") && !Includes(q, "น้ำ") && !Includes(q, "กรด")
      && !Includes(Lower(q), "ph")
  {
    ThaiKeywordsLetterFree();
    IncludesLetterFree(q, "แฉะ");
    IncludesLetterFree(q, "น้ำ");
    IncludesLetterFree(q, "กรด");
    IncludesLetterFree(q, "ปุ๋ย");
  }

  /** The default answer is given exactly when no keyword occurs. */
  lemma UnknownIff(q: string)
    ensures CannedReply(q) == Unknown <==>
      !Includes(q, "แฉะ") && !Includes(q, "น้ำ") && !Includes(q, "กรด") && !Includes(q, "ปุ๋ย")
      && !Includes(Lower(q), "ph")
  {
    ThaiKeywordsLetterFree();
    IncludesLetterFree(q, "แฉะ");
    IncludesLetterFree(q, "น้ำ");
    IncludesLetterFree(q, "กรด");
    IncludesLetterFree(q, "ปุ๋ย");
  }

  /**
   * The guard of `sendChat`: the trimmed input, or nothing when the input is
   * empty or all whitespace.
   */
  function Submission(raw: string): (v: Option<string>)
    ensures v.None? <==> forall i :: 0 <= i < |raw| ==> IsJsSpace(raw[i])
    ensures v.Some? ==> v.value == Trim(raw) && v.value != []
  {
    var t := Trim(raw);
    if t == [] then None else Some(t)
  }

  datatype Sender = User | Bot

  /** One line in the chat panel. */
  datatype Message = Message(who: Sender, text: string)

  /**
   * The chat panel: the text box, the messages shown, and the queries whose
   * delayed answer has been scheduled but not yet shown (oldest first).
   */
  class ChatPanel {
    var input: string
    var log: seq<Message>
    var pending: seq<string>

    constructor ()
      ensures input == [] && log == [] && pending == []
    {
      input, log, pending := [], [], [];
    }

    /** The user types into the text box. */
    method Type(s: string)
      modifies this
      ensures input == s && log == old(log) && pending == old(pending)
    {
      input := s;
    }

    /**
     * `sendChat`: with nothing but whitespace in the box nothing happens;
     * otherwise the trimmed text is shown as the user's message, the box is
     * cleared and an answer to the trimmed text is scheduled.
     */
    method Send()
      modifies this
      ensures Submission(old(input)).None? ==>
        input == old(input) && log == old(log) && pending == old(pending)
      ensures Submission(old(input)).Some? ==>
        var v := Submission(old(input)).value;
        input == [] && log == old(log) + [Message(User, v)] && pending == old(pending) + [v]
    {
      var v := Submission(input);
      if v.Some? {
        log := log + [Message(User, v.value)];
        input := [];
        pending := pending + [v.value];
      }
    }

    /**
     * The scheduled answer fires: the oldest waiting query gets its canned
     * answer appended as the bot's message.
     */
    method DeliverReply()
      requires pending != []
      modifies this
      ensures log == old(log) + [Message(Bot, CannedResponse(old(pending)[0]))]
      ensures pending == old(pending)[1..] && input == old(input)
    {
      log := log + [Message(Bot, CannedResponse(pending[0]))];
      pending := pending[1..];
    }
  }
}
