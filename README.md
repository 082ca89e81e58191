# My Number card counter guide — a Dafny model of its core

The application asks a visitor a short series of questions about a My
Number card procedure (applying for a card, collecting it, its electronic
certificate, its PIN), and from the answers works out which documents the
visitor must bring. This project models that core:

- **the question catalog** (`questions_data.dfy`, module `QuestionsData`).
  It holds the five questions, each with its visibility rule, and the
  catalog of display entries for documents (the source's `QUESTIONS` and
  `ITEMS` constants). Each `showWhen` arrow is a
  constructor of `ShowRule`, and `Holds` evaluates it with JavaScript's
  precedence (`&&` binds tighter than `||`). `Reads` names the answer keys
  a rule looks at.
- **the requirement resolver** (`rules_engine.dfy`, module `RulesEngine`).
  It covers `resolveItems` and its three branches (card issuance,
  electronic certificate, PIN change), the generic rule loop over the
  empty `RULES` table, the proxy notice and the catalog lookup.
  - The source builds each list by successive `push`es. Each numbered
    section of the card issuance branch is therefore a method. That
    method's contract states, document by document, which documents the
    section appends, both as an exact list and document by document
    through ghost predicates such as `ProxyPushes`.
  - Functions such as `NotificationCardList` and `ProxyList` give each
    section's pushes as a list, in push order. `IssuanceList` puts them
    together as the branch returns them: the early sections alone after
    the early return, otherwise every push with later repeats dropped.
  - `IssuanceNeeds` is an independent, per-document reference. It says
    under which answers each document is listed, and `SectionsMeetNeeds`
    proves that the sections add up to it.
  - The early `return` of a proxy without the notification card is the
    `refused` flag of `PushNoNotification`.
  - Every JavaScript `switch` on a string becomes a `match` on that string.
- **the wizard** (`question_wizard.dfy`, module `QuestionWizard`).
  - `Relevant` is the filter of visible questions.
  - Class `Wizard` holds the component's three pieces of state and its
    three handlers.
  - The wizard's position always names a visible question. This holds
    because no visibility rule reads the id of its own question or of a
    later one (`LooksBackOnly`): answering a question therefore cannot
    hide it or anything before it. Every other key a rule reads is the id
    of an earlier question, except `lost_check_complete`, which no
    question asks.

Supporting modules:

- `Answers` (`answers.dfy`) models the answer record as a
  `map<string, string>`, with JavaScript's semantics spelled out:
  - `===` on a possibly missing key is `Is`;
  - truthiness is `Truthy`;
  - `.includes` on a literal list is `IsOneOf`;
  - `x || ""` is `ValueOrEmpty`;
  - `.split` is `Split`, with `Join` as its inverse.
- `Lists` (`lists.dfy`) holds duplicate-freedom. `Array.from(new Set(xs))`
  is the method `Dedup`, specified by the function `Distinct`, which keeps
  the first occurrences in order.
- `ItemIds` (`items.dfy`) is the enumeration of every document key the
  resolver can emit. `Key` maps each one to the source's string literal.

## Model

| member | source | states |
|---|---|---|
| QuestionsData.Holds | client/src/lib/questions-data.ts:37-69 | the four `showWhen` predicates, `application_method`'s read as `(A && B && C) \|\| D`; characterised by the `...ShownIff` lemmas below |
| QuestionsData.Shown | client/src/components/question-wizard.tsx:18-20 | a question without a predicate is always visible, any other exactly when its predicate holds |
| QuestionsData.ShownFrame | client/src/lib/questions-data.ts:37-69 | writing an answer key that a question's rule does not read leaves that question's visibility unchanged |
| QuestionsData.QuestionsLookBackOnly | client/src/lib/questions-data.ts:14-72 | no question's rule reads the id of that question or of a later one |
| QuestionsData.QuestionsReadEarlierAnswers | client/src/lib/questions-data.ts:14-72 | each key a rule reads is the id of an earlier question, or `lost_check_complete`, which is no question's id |
| QuestionsData.QuestionIdsDistinct | client/src/lib/questions-data.ts:14-72 | the five question ids of `QUESTIONS` are pairwise distinct |
| QuestionsData.QuestionOptionsDistinct | client/src/lib/questions-data.ts:14-72 | within each question, the option values are pairwise distinct |
| QuestionsData.ProcedureAlwaysShown | client/src/lib/questions-data.ts:15-27 | the first question is `procedure`; it has no rule and is visible for every answer map |
| QuestionsData.ApplicationTypeShownIff | client/src/lib/questions-data.ts:37 | `application_type` is visible iff the procedure is `card_application` |
| QuestionsData.LostProceduresShownIff | client/src/lib/questions-data.ts:39-44 | `lost_procedures` is visible iff the procedure is `card_application` and the type is `lost_reissue`; it has no options |
| QuestionsData.ApplicationMethodShownIff | client/src/lib/questions-data.ts:56-60 | `application_method` is visible iff (card application, a non-empty type other than `lost_reissue`) or (`lost_reissue` and `lost_check_complete` is `"true"`) |
| QuestionsData.ApplicationMethodIgnoresProcedureWhenLost | client/src/lib/questions-data.ts:56-60 | with a lost card and a completed lost check, `application_method` is visible whatever the procedure is |
| QuestionsData.MailTypeShownIff | client/src/lib/questions-data.ts:69 | `mail_type` is visible iff the application method is `mail` |
| Answers.ValueOrEmpty | client/src/components/question-wizard.tsx:41 | `answers[k] \|\| ""`: the stored answer when there is one, else the empty string |
| Answers.Split | client/src/lib/rules-engine.ts:123 | `split(',')`: the maximal runs between separators, empty runs included, never no piece; its inverse is `Join` (next two rows) |
| Answers.JoinSplit | client/src/lib/rules-engine.ts:123 | joining the pieces of `split(',')` with commas gives back the original answer |
| Answers.SplitJoin | client/src/lib/rules-engine.ts:123 | splitting a comma-join of separator-free tokens gives back exactly those tokens |
| Answers.SplitPiecesHaveNoSeparator | client/src/lib/rules-engine.ts:123 | no piece of a split contains the separator |
| Lists.Distinct | client/src/lib/rules-engine.ts:47 | `Array.from(new Set(xs))` is duplicate-free, no longer than `xs`, and has exactly the members of `xs` |
| Lists.DistinctInFirstOccurrenceOrder | client/src/lib/rules-engine.ts:47 | the de-duplicated list keeps the order of first occurrences |
| Lists.DistinctOfNoDup | client/src/lib/rules-engine.ts:267 | de-duplicating a duplicate-free list changes nothing |
| Lists.DistinctKeepsPrefix | client/src/lib/rules-engine.ts:267 | a duplicate-free prefix of the input survives de-duplication in place |
| Lists.Dedup | client/src/lib/rules-engine.ts:47 | the loop over a `Set` computes exactly `Distinct` of its input |
| RulesEngine.Matches | client/src/lib/rules-engine.ts:38-40 | a rule matches when every one of its conditions strictly equals the answer under that key; a missing answer never matches |
| RulesEngine.RulePushes | client/src/lib/rules-engine.ts:37-45 | a document is pushed by the rule loop iff some rule whose every condition equals the answer adds it |
| RulesEngine.ApplyRules | client/src/lib/rules-engine.ts:35-47 | the rule loop returns the de-duplicated pushes: duplicate-free, and a document is listed iff a matching rule adds it |
| RulesEngine.PushNotificationCard | client/src/lib/rules-engine.ts:95-113 | section 1 appends exactly `NotificationCardList`: with `notification_card` `yes`, a notification card variant (the over-75 or the other variant for a proxy giving "other"), then for the cardholder its identity document; otherwise nothing |
| RulesEngine.PushCurrentCard | client/src/lib/rules-engine.ts:115-119 | section 2 appends exactly `CurrentCardList`: the current card for a renewal or another reissue, else nothing |
| RulesEngine.PushReturnedCards | client/src/lib/rules-engine.ts:121-130 | section 3 appends exactly `ReturnedCardList`: the basic resident card, then the notification card, each exactly when its token is one of the entries |
| RulesEngine.PushNoNotification | client/src/lib/rules-engine.ts:132-153 | section 4 appends exactly `NoNotificationList`: the inquiry response and identity document, the warning, or the other identity document; it reports the early return exactly for a proxy turned away |
| RulesEngine.PushHardshipCert | client/src/lib/rules-engine.ts:170-195 | appends exactly the certificate belonging to the hardship reason, and nothing for other reasons |
| RulesEngine.PushGuardianCert | client/src/lib/rules-engine.ts:208-221 | appends exactly the certificate belonging to the guardianship reason, and nothing for other reasons |
| RulesEngine.PushProxyOther | client/src/lib/rules-engine.ts:161-199 | for a proxy giving "other", appends exactly the proxy's identity document, then the certificate of a listed hardship reason (none for `over_75` or an unlisted reason) |
| RulesEngine.PushProxyGuardian | client/src/lib/rules-engine.ts:200-221 | for a proxy of a cardholder under guardianship, appends exactly the guardian's identity document, then the guardianship certificate |
| RulesEngine.PushMinorProxy | client/src/lib/rules-engine.ts:222-230 | for a proxy of a minor, appends exactly the guardian's identity document, then the family register when the minor lives apart and is registered elsewhere |
| RulesEngine.PushProxyItems | client/src/lib/rules-engine.ts:155-231 | section 5 appends exactly `ProxyList`: the cardholder's identity document, then the proxy's documents of the matching age and reason branch |
| RulesEngine.PushAccompanied | client/src/lib/rules-engine.ts:233-260 | section 6 appends exactly `AccompaniedList`: the companion's identity document, the guardianship certificate and the family register, each under the source's condition and in push order |
| RulesEngine.PushInquiry | client/src/lib/rules-engine.ts:262-265 | section 8 appends exactly `InquiryList`: the inquiry response exactly when it is marked applicable |
| RulesEngine.PushEarlySections | client/src/lib/rules-engine.ts:92-153 | from the empty list, sections 1-4 give exactly `EarlyList`, their four lists in push order; it reports the early return; a refused proxy's list ends with the warning and has no duplicates |
| RulesEngine.PushLateSections | client/src/lib/rules-engine.ts:155-265 | sections 5, 6 and 8 append exactly `LateList`, their three lists in push order |
| RulesEngine.SectionsMeetNeeds | client/src/lib/rules-engine.ts:92-268 | the documents pushed by the sections are exactly the per-document reference `IssuanceNeeds`, the late sections counting only without the early return |
| RulesEngine.ResolveIssuanceItems | client/src/lib/rules-engine.ts:92-268 | the list is exactly `IssuanceList`: for a refused proxy the early pushes as they are, otherwise every push in order of first push; it is duplicate-free and holds exactly the documents `IssuanceNeeds` names; the notification card comes first (followed by its identity document for the cardholder); a refused proxy's list ends with the warning |
| RulesEngine.EarlyListStart | client/src/lib/rules-engine.ts:95-113 | section 1 comes first: with the notification card the early list starts with a card variant, followed by its identity document for the cardholder |
| RulesEngine.IssuanceListStart | client/src/lib/rules-engine.ts:92-268 | with the notification card, the returned list starts with a notification card variant: de-duplication keeps the first push first |
| RulesEngine.IssuanceListSelfStart | client/src/lib/rules-engine.ts:92-268 | for a cardholder with the notification card, the returned list starts with the card and its identity document, in that order |
| RulesEngine.IssuanceMembers | client/src/lib/rules-engine.ts:92-268 | the early pushes, with the late ones unless the proxy was turned away, hold exactly the documents `IssuanceNeeds` names, before and after de-duplication |
| RulesEngine.IssuanceListInPushOrder | client/src/lib/rules-engine.ts:267 | without the early return, the documents are listed in the order of their first push |
| RulesEngine.SelfRenewalOrder | client/src/lib/rules-engine.ts:92-268 | a cardholder renewing in person without the notification card and returning only the basic resident card gets exactly the current card, the basic resident card and the other identity document, in that order |
| RulesEngine.RefusedProxyListsOnlyCards | client/src/lib/rules-engine.ts:144-146 | a proxy turned away is listed only the warning, the current card and the returned cards |
| RulesEngine.ProxyDocumentsListed | client/src/lib/rules-engine.ts:155-231 | an accepted proxy always brings the cardholder's identity document; for a minor, also the guardian's; the family register exactly for a minor living apart and registered elsewhere |
| RulesEngine.SelfVisitorNeedsNoProxyDocument | client/src/lib/rules-engine.ts:92-268 | a cardholder who comes in person is never listed a proxy-only document |
| RulesEngine.ReturnsTokenExactly | client/src/lib/rules-engine.ts:122-130 | a returned card is detected iff its token is one of the comma-separated entries, compared whole |
| RulesEngine.PushCertReasonDocument | client/src/lib/rules-engine.ts:280-315 | the reason switch of the certificate branch appends exactly `CertReasonList`: the one document belonging to the reason (none for `under_15` unless not cohabiting with a register outside the city, none for `voluntary_proxy` unless the type is issuance or renewal), and nothing for any other reason |
| RulesEngine.PushCertGuardianCert | client/src/lib/rules-engine.ts:282-294 | appends exactly the guardianship certificate of the certificate branch for each of the four guardianship reasons, and nothing for any other reason |
| RulesEngine.PushCertInquiryResponse | client/src/lib/rules-engine.ts:301-310 | for a voluntary proxy, appends exactly the inquiry response for an issuance or the renewal response for a renewal, and nothing for any other certificate type |
| RulesEngine.ResolveCertificateItems | client/src/lib/rules-engine.ts:270-320 | the list is duplicate-free with exactly the documents `CertificateNeeds` names; it starts with the cardholder's card; a proxy's identity document comes second; a non-proxy gets only the card; at most three documents |
| RulesEngine.SameHouseholdProxyNeedsPowerOfAttorney | client/src/lib/rules-engine.ts:311-313 | a same-household proxy brings the power of attorney and no guardianship certificate |
| RulesEngine.PushPinReasonDocument | client/src/lib/rules-engine.ts:339-364 | the reason switch of the PIN branch appends exactly `PinReasonList`: the one document belonging to the reason (none for `under_15` unless not cohabiting with a register outside the city), and nothing for any other reason |
| RulesEngine.PushPinGuardianCert | client/src/lib/rules-engine.ts:341-352 | appends exactly the guardianship certificate of the PIN branch for each of the four guardianship reasons, and nothing for any other reason |
| RulesEngine.PinProxyDocuments | client/src/lib/rules-engine.ts:334-364 | a PIN proxy's list is duplicate-free, starts with the cardholder's card and the proxy's identity options, has two or three documents, and holds exactly what `PinProxyNeeds` names |
| RulesEngine.ResolvePinChangeItems | client/src/lib/rules-engine.ts:323-369 | the cardholder gets the card and an identity document; a proxy gets exactly `PinProxyNeeds`; any other visitor type gets nothing |
| RulesEngine.ResolveItems | client/src/lib/rules-engine.ts:13-48 | nothing once an application method was chosen; otherwise for card issuance exactly `IssuanceList`; for the certificate, the card first, a proxy's identity document second, at most three documents and the card alone for a non-proxy; for a PIN change, the cardholder's exact pair, a proxy's card and identity options first in a list of two or three, nothing for other visitor types; nothing for any other procedure (the rule table is empty); always duplicate-free |
| RulesEngine.GetProxySpecialNotice | client/src/lib/rules-engine.ts:51-90 | a notice is one of the five tokens and is only given for a card-issuance proxy |
| RulesEngine.MinorGuardianNoticeIff | client/src/lib/rules-engine.ts:57-69 | the guardian notice goes exactly to a proxy for a minor, or for a cardholder aged 15 or over under one of the four guardianships |
| RulesEngine.HardshipNoticeIff | client/src/lib/rules-engine.ts:71-86 | each hardship notice goes exactly to a card-issuance proxy giving "other" with that specific reason |
| RulesEngine.GuardianNoticeListsGuardianDocument | client/src/lib/rules-engine.ts:57-69 | whenever the guardian notice is shown, the list asks for the guardian's identity document |
| RulesEngine.HardshipNoticeListsCertificate | client/src/lib/rules-engine.ts:71-86 | whenever a hardship notice is shown (and the proxy is not turned away), the list asks for that reason's certificate |
| RulesEngine.GetItemDetails | client/src/lib/rules-engine.ts:371-373 | the lookup gives an entry exactly for keys in the catalog, and then the catalog's entry |
| RulesEngine.CatalogHasNotificationCard | client/src/lib/questions-data.ts:79-117 | the notification card has an entry in the `ITEMS` catalog |
| RulesEngine.CatalogLacksIdentityDocument | client/src/lib/questions-data.ts:79-117 | the identity document listed with the notification card has no catalog entry, so its lookup gives nothing |
| QuestionWizard.Relevant | client/src/components/question-wizard.tsx:18-20 | the visible questions are never more than the catalog |
| QuestionWizard.RelevantMembers | client/src/components/question-wizard.tsx:18-20 | a question is visible iff it is in the catalog and its rule holds |
| QuestionWizard.RelevantPrefix | client/src/components/question-wizard.tsx:18-20 | the questions visible from a prefix of the catalog are a prefix of the visible list |
| QuestionWizard.RelevantSource | client/src/components/question-wizard.tsx:18-20 | the visible question at position c is some catalog question k, with exactly c visible questions before k |
| QuestionWizard.RelevantInOrder | client/src/components/question-wizard.tsx:18-20 | the visible list keeps the catalog's order |
| QuestionWizard.RelevantUnchanged | client/src/components/question-wizard.tsx:18-20 | answer maps that agree on every question's visibility give the same visible list |
| QuestionWizard.AnsweringKeepsEarlierQuestions | client/src/components/question-wizard.tsx:28-41 | answering the visible question at position c keeps it and all earlier visible questions in place |
| QuestionWizard.RelevantStartsWithProcedure | client/src/components/question-wizard.tsx:18-22 | the visible list is never empty and starts with `procedure` |
| QuestionWizard.Wizard.CurrentQuestion | client/src/components/question-wizard.tsx:22 | the current question is a catalog question whose predicate holds for the answers so far |
| QuestionWizard.Wizard.constructor | client/src/components/question-wizard.tsx:13-15 | the wizard starts at question 0 with no answers and nothing selected, on a visible question |
| QuestionWizard.Wizard.OptionSelect | client/src/components/question-wizard.tsx:26-46 | records the answer for the current question only; advances to the next visible question and shows its stored answer, or completes with the new answers at the last one; the position stays on a visible question |
| QuestionWizard.Wizard.Next | client/src/components/question-wizard.tsx:48-55 | advances and shows the next question's stored answer, or completes with the unchanged answers at the last question |
| QuestionWizard.Wizard.Prev | client/src/components/question-wizard.tsx:57-62 | steps back one question and shows its stored answer; a no-op at the first question |

## Left out

- The 300 ms delay in `handleOptionSelect`: `OptionSelect` runs the
  delayed step at once. Interleavings with other clicks during the delay
  are not modelled.
- `lost_check_complete` is read by the rule of `application_method`
  (questions-data.ts:56-60), but no question asks it and the wizard never
  writes it. From the wizard, the rule's second disjunct is therefore
  never met. The rule is modelled as written.
- The progress percentage (question-wizard.tsx:24), all rendering, the
  QR code, printing and the result page are not part of this model.
- `onComplete` is not called. `OptionSelect` and `Next` return its
  argument as `completed`.
- `GetItemDetails`: keys are looked up in a finite map. JavaScript's
  inherited object properties (`"toString"`, `"constructor"`), which
  `ITEMS[key]` would also find, are not modelled.
- The shared `Answer` schema file is not part of this model. Answers
  are a map from string to string, as the code uses them.
- `Rule.add` holds document enumerators, not free strings. The table is
  empty, so no behaviour is lost.
- `lost_procedures` has no options. The wizard renders no Next button,
  so a visitor who reaches it cannot go on. This is modelled as written;
  no property about it is stated.
- The early return of a refused proxy (rules-engine.ts:144-146) returns
  the list without de-duplicating it. This is modelled as written, and
  the list is proved duplicate-free anyway.
- The resolver's lists hold document enumerators, and their
  duplicate-freedom is proved over them. That distinct enumerators have
  distinct strings (`Key` is injective) is not proved. It rests on the
  47 string literals of `Key` being pairwise different, which the
  function shows on its face.
