/** The question catalog, with the visibility rule of every question, and
    the catalog of document display entries
    (client/src/lib/questions-data.ts). */
module QuestionsData {
  import opened Answers

  /** An option; `caption` is the source's `label` (a reserved word here). */
  datatype QuestionOption = QuestionOption(v: string, caption: string, icon: string)

  /** The `showWhen` predicates of the catalog, one constructor per
      predicate, so that every visibility formula is written down once. */
  datatype ShowRule =
    | ProcedureIsCardApplication   // questions-data.ts:37
    | LostReissueChosen            // questions-data.ts:43
    | ApplicationMethodApplies     // questions-data.ts:56-60
    | MailChosen                   // questions-data.ts:69

  /** A question; `showWhen == None` is a question without a predicate. */
  datatype Question = Question(
    id: string,
    text: string,
    options: seq<QuestionOption>,
    showWhen: Option<ShowRule>)

  datatype RequiredItem = RequiredItem(name: string, icon: string)

  /** The value of a `showWhen` predicate, read with JavaScript's
      precedence: `&&` binds tighter than `||`, so the predicate of
      `application_method` is `(A && B && C) || D`. */
  predicate Holds(rule: ShowRule, a: Answer) {
    match rule
    case ProcedureIsCardApplication =>
      Is(a, "procedure", "card_application")
    case LostReissueChosen =>
      Is(a, "procedure", "card_application") && Is(a, "application_type", "lost_reissue")
    case ApplicationMethodApplies =>
      (Is(a, "procedure", "card_application")
        && Truthy(a, "application_type")
        && !Is(a, "application_type", "lost_reissue"))
      || (Is(a, "application_type", "lost_reissue") && Is(a, "lost_check_complete", "true"))
    case MailChosen =>
      Is(a, "application_method", "mail")
  }

  /** `!q.showWhen || q.showWhen(answers)` */
  predicate Shown(q: Question, a: Answer) {
    q.showWhen.None? || Holds(q.showWhen.value, a)
  }

  /** The answer keys a visibility rule looks at. */
  function RuleReads(rule: ShowRule): set<string> {
    match rule
    case ProcedureIsCardApplication => {"procedure"}
    case LostReissueChosen => {"procedure", "application_type"}
    case ApplicationMethodApplies => {"procedure", "application_type", "lost_check_complete"}
    case MailChosen => {"application_method"}
  }

  function Reads(q: Question): set<string> {
    if q.showWhen.None? then {} else RuleReads(q.showWhen.value)
  }

  /** Writing a key outside a question's reads leaves its visibility alone. */
  lemma ShownFrame(q: Question, a: Answer, key: string, v: string)
    requires key !in Reads(q)
    ensures Shown(q, a[key := v]) == Shown(q, a)
  {
  }

  /** No question's rule reads the id of that question or of a later one:
      answering a question never hides or reveals it or an earlier one.
      A rule may still read a key that is no question's id. */
  ghost predicate LooksBackOnly(qs: seq<Question>) {
    forall i, j :: 0 <= i <= j < |qs| ==> qs[j].id !in Reads(qs[i])
  }

  /** questions-data.ts:14-27 */
  const ProcedureQuestion: Question :=
    Question(
      "procedure",
      "お手続きの種類をお選びください",
      [
        QuestionOption("card_application", "カードの申請・更新", "fas fa-id-card"),
        QuestionOption("card_issuance", "カードの交付（受け取り）", "fas fa-hand-holding"),
        QuestionOption("digital_cert", "電子証明書の発行・更新", "fas fa-certificate"),
        QuestionOption("pin_change", "暗証番号の変更・初期化", "fas fa-key"),
        QuestionOption("info_change", "住所・氏名等の変更", "fas fa-edit"),
        QuestionOption("card_lost", "カードの紛失", "fas fa-exclamation-triangle"),
        QuestionOption("card_return", "カードの返納", "fas fa-minus-circle")
      ],
      None)

  /** questions-data.ts:28-38 */
  const ApplicationTypeQuestion: Question :=
    Question(
      "application_type",
      "お手続きの種類をお選びください",
      [
        QuestionOption("new", "新規", "fas fa-plus"),
        QuestionOption("renewal", "更新", "fas fa-sync-alt"),
        QuestionOption("lost_reissue", "紛失による再発行", "fas fa-exclamation-triangle"),
        QuestionOption("other_reissue", "紛失以外の理由による再発行", "fas fa-redo")
      ],
      Some(ProcedureIsCardApplication))

  /** questions-data.ts:39-44 */
  const LostProceduresQuestion: Question :=
    Question(
      "lost_procedures",
      "紛失手続きの確認",
      [],
      Some(LostReissueChosen))

  /** questions-data.ts:45-61 */
  const ApplicationMethodQuestion: Question :=
    Question(
      "application_method",
      "申請方法をお選びください",
      [
        QuestionOption("online", "オンライン（スマートフォンやパソコン）で申請する", "fas fa-laptop"),
        QuestionOption("photo_booth", "まちなかの写真機から申請する", "fas fa-camera"),
        QuestionOption("mail", "郵送で申請する", "fas fa-envelope"),
        QuestionOption("center", "マイナンバーカードセンターで申請する", "fas fa-building"),
        QuestionOption("mobile_service", "出張申請窓口又は出張申請サポートで申請する", "fas fa-truck"),
        QuestionOption("office_support", "区役所・支所の窓口での申請サポートを受ける", "fas fa-hands-helping")
      ],
      Some(ApplicationMethodApplies))

  /** questions-data.ts:62-70 */
  const MailTypeQuestion: Question :=
    Question(
      "mail_type",
      "郵送申請の種類をお選びください",
      [
        QuestionOption("notification_form", "通知カード又は個人番号通知書に同封されているマイナンバーカード交付申請書による申請", "fas fa-file-alt"),
        QuestionOption("handwritten_form", "手書き交付申請書による申請", "fas fa-pen")
      ],
      Some(MailChosen))

  const QUESTIONS: seq<Question> := [
    ProcedureQuestion,
    ApplicationTypeQuestion,
    LostProceduresQuestion,
    ApplicationMethodQuestion,
    MailTypeQuestion
  ]

  /** The document catalog (questions-data.ts:79-117). */
  const ITEMS: map<string, RequiredItem> :=
    map[
      "mynumber_card" := RequiredItem("マイナンバーカード本体", "fas fa-id-card"),
      "notification_card" := RequiredItem("交付通知書（はがき）", "fas fa-envelope"),
      "mynumber_notification_card" := RequiredItem("マイナンバー通知カード（お持ちの方は返納していただきます。）", "fas fa-id-card-alt"),
      "resident_card" := RequiredItem("住民基本台帳カード（お持ちの方は返納していただきます。）", "fas fa-id-card"),
      "current_mynumber_card" := RequiredItem("現在お持ちのマイナンバーカード（マイナンバーカード再交付申請の方は、現在お持ちのマイナンバーカードを返納してください。返納がない場合、再交付手数料として1,000円頂戴します。）", "fas fa-id-card"),
      "pin_number" := RequiredItem("暗証番号（4桁数字）", "fas fa-key"),
      "self_id_a1" := RequiredItem("本人確認書類（A欄から1点）", "fas fa-id-badge"),
      "self_id_a2" := RequiredItem("本人確認書類（A欄から2点）", "fas fa-id-badge"),
      "self_id_a1_b1" := RequiredItem("本人確認書類（下表（本人確認書類一覧）のA欄から1点又はB欄から2点）※　交付通知書（はがき）をお持ちでない場合は、下表のA欄2点又はA欄1点＋B欄1点が必要になります。（例：運転免許証＋パスポート　又は　運転免許証＋資格確認書（健康保険証）　等）", "fas fa-id-badge"),
      "self_id_b2" := RequiredItem("本人確認書類（B欄から2点）", "fas fa-id-badge"),
      "self_id_b3_with_photo" := RequiredItem("本人確認書類（B欄3点、うち1点は顔写真付き）", "fas fa-id-badge"),
      "legal_rep_id_a1" := RequiredItem("法定代理人の本人確認書類（A欄から1点）", "fas fa-user-shield"),
      "legal_rep_id_a2" := RequiredItem("法定代理人の本人確認書類（A欄から2点）", "fas fa-user-shield"),
      "legal_rep_id_a1_b1" := RequiredItem("法定代理人の本人確認書類（A欄1点＋B欄1点）", "fas fa-user-shield"),
      "legal_authority_proof" := RequiredItem("法定代理権を証明する書類（戸籍謄本等）", "fas fa-file-alt"),
      "guardian_cert" := RequiredItem("成年後見登記事項証明書", "fas fa-file-certificate"),
      "proxy_id_a1" := RequiredItem("任意代理人の本人確認書類（A欄から1点）", "fas fa-user-friends"),
      "proxy_id_a2" := RequiredItem("任意代理人の本人確認書類（A欄から2点）", "fas fa-user-friends"),
      "proxy_id_a1_b1" := RequiredItem("任意代理人の本人確認書類（A欄1点＋B欄1点）", "fas fa-user-friends"),
      "inquiry_response" := RequiredItem("照会書兼回答書（封入・封緘済み）", "fas fa-envelope-open"),
      "power_of_attorney" := RequiredItem("委任状", "fas fa-file-signature"),
      "reason_certificate" := RequiredItem("来庁できない理由を証明する書類", "fas fa-file-medical"),
      "lost_report" := RequiredItem("遺失届受理番号控え", "fas fa-file-signature"),
      "reissue_fee" := RequiredItem("再発行手数料（1,000円）", "fas fa-yen-sign"),
      "broken_card" := RequiredItem("破損したマイナンバーカード", "fas fa-id-card"),
      "old_card" := RequiredItem("旧マイナンバーカード（返納用）", "fas fa-id-card"),
      "temp_stop_release_form" := RequiredItem("個人番号カード一時停止解除届", "fas fa-play-circle"),
      "return_form" := RequiredItem("個人番号カード紛失・廃止・返納届", "fas fa-minus-circle")
    ]

  predicate OptionValuesDistinct(options: seq<QuestionOption>) {
    forall p, q :: 0 <= p < q < |options| ==> options[p].v != options[q].v
  }

  lemma QuestionIdsDistinct()
    ensures forall i, j :: 0 <= i < j < |QUESTIONS| ==> QUESTIONS[i].id != QUESTIONS[j].id
  {
  }

  lemma QuestionOptionsDistinct()
    ensures forall i :: 0 <= i < |QUESTIONS| ==> OptionValuesDistinct(QUESTIONS[i].options)
  {
  }

  lemma QuestionsLookBackOnly()
    ensures LooksBackOnly(QUESTIONS)
  {
  }

  /** Each key a rule reads is the id of an earlier question, except
      `lost_check_complete`, which no question asks. */
  lemma QuestionsReadEarlierAnswers()
    ensures forall i, k :: 0 <= i < |QUESTIONS| && k in Reads(QUESTIONS[i]) ==>
      k == "lost_check_complete" || exists j :: 0 <= j < i && QUESTIONS[j].id == k
    ensures forall i :: 0 <= i < |QUESTIONS| ==> QUESTIONS[i].id != "lost_check_complete"
  {
    forall i, k | 0 <= i < |QUESTIONS| && k in Reads(QUESTIONS[i])
      ensures k == "lost_check_complete" || exists j :: 0 <= j < i && QUESTIONS[j].id == k
    {
      if k == "procedure" {
        assert QUESTIONS[0].id == k;
      } else if k == "application_type" {
        assert QUESTIONS[1].id == k;
      } else if k == "application_method" {
        assert QUESTIONS[3].id == k;
      }
    }
  }

  /** `procedure` comes first and has no predicate, so it is visible for
      every answer map. */
  lemma ProcedureAlwaysShown(a: Answer)
    ensures QUESTIONS[0] == ProcedureQuestion && ProcedureQuestion.id == "procedure"
    ensures Shown(QUESTIONS[0], a)
  {
  }

  lemma ApplicationTypeShownIff(a: Answer)
    ensures Shown(ApplicationTypeQuestion, a)
      <==> "procedure" in a && a["procedure"] == "card_application"
  {
  }

  lemma LostProceduresShownIff(a: Answer)
    ensures Shown(LostProceduresQuestion, a)
      <==> ("procedure" in a && a["procedure"] == "card_application"
        && "application_type" in a && a["application_type"] == "lost_reissue")
    ensures LostProceduresQuestion.options == []
  {
  }

  /** The `application_method` predicate as written: the first disjunct
      needs a non-empty application type other than `lost_reissue`; the
      second does not look at `procedure` at all. */
  lemma ApplicationMethodShownIff(a: Answer)
    ensures Shown(ApplicationMethodQuestion, a) <==>
      ("procedure" in a && a["procedure"] == "card_application"
        && "application_type" in a && a["application_type"] !in {"", "lost_reissue"})
      || ("application_type" in a && a["application_type"] == "lost_reissue"
        && "lost_check_complete" in a && a["lost_check_complete"] == "true")
  {
  }

  /** With a lost card and the completed lost-card check, `application_method`
      shows whatever the procedure is: the predicate is not
      `A && B && (C || D)`. */
  lemma ApplicationMethodIgnoresProcedureWhenLost(a: Answer, procedure: string)
    requires Is(a, "application_type", "lost_reissue") && Is(a, "lost_check_complete", "true")
    ensures Shown(ApplicationMethodQuestion, a["procedure" := procedure])
  {
  }

  lemma MailTypeShownIff(a: Answer)
    ensures Shown(MailTypeQuestion, a)
      <==> "application_method" in a && a["application_method"] == "mail"
  {
  }
}
