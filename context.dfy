/** The decision engine's reading of one user input: keyword bonuses that
    add up to a score, a tone chosen by the last keyword rule that fires, a
    strategy flag at score 50, the detection of image-generation requests,
    and the ordered reasoning trace shown to the user. The counter of
    repeated commands is state of the engine and lives in `Engine`; here it
    enters as the flag `frequent` (the counter, after incrementing, exceeds
    three). */
module ContextAnalysis {
  import opened Text
  import Seqs

  // ---------------------------------------------------------------------
  // Fixed texts

  // The longer texts are written as a concatenation of clauses.

  const InfoTag := "INFO: "
  const AlertTag := "ALERTA: "
  const DecisionPrefix := "DECISÃO:"

  /** An informational trace entry. */
  function Info(body: string): (line: string)
  {
    InfoTag + body
  }

  const StartNote := "A iniciar motor de inferência..."
  const ImageNote := Info("Pedido de geração de imagem detetado. " + "Encaminhando para o módulo visual.")
  const SemanticNote := "A avaliar parâmetros semânticos..."
  const CriticalNote := AlertTag + "Contexto crítico detetado (+50 pts)."
  const AnalyticNote := Info("Requisição analítica complexa " + "detetada (+30 pts).")
  const SocialNote := Info("Interação social detetada. " + "Ajustando tom para empático.")
  const EngineeringNote := Info("Contexto de engenharia detetado. " + "Ajustando tom para técnico.")
  const StrategicDecision := DecisionPrefix + " Threshold de complexidade atingido. " + "Ativando MODO ESTRATÉGICO."
  const StandardDecision := DecisionPrefix + " Processamento padrão adequado."

  const DefaultTone := "técnico, conciso e profissional"
  const CasualTone := "casual, empático e amigável"
  const EngineeringTone := "altamente técnico, focado em engenharia " + "e resolução direta"

  /** The trace entry for a command seen more than three times. */
  function FrequentNote(key: string): (note: string)
  {
    Info("Padrão de comportamento detetado " + "(Comando frequente: " + key + "). Otimizando cache de resposta.")
  }

  const RepeatBonus := 5
  const UrgencyBonus := 50
  const AnalyticBonus := 30
  const SocialBonus := 10
  const EngineeringBonus := 40
  const StrategyThreshold := 50

  /** The result of `analyzeContext`. */
  datatype Decision = Decision(
    score: int,
    tone: string,
    requiresStrategy: bool,
    reasoning: seq<string>,
    isImageRequest: bool)

  // ---------------------------------------------------------------------
  // Keyword categories, tested on the lower-cased input

  predicate Urgent(lower: string)
  {
    Contains(lower, "urgente") || Contains(lower, "importante")
    || Contains(lower, "problema") || Contains(lower, "erro")
  }

  predicate Analytic(lower: string)
  {
    Contains(lower, "como") || Contains(lower, "porquê")
    || Contains(lower, "analisa") || Contains(lower, "explica")
  }

  predicate Social(lower: string)
  {
    Contains(lower, "olá") || Contains(lower, "bom dia") || Contains(lower, "tudo bem")
  }

  predicate Engineering(lower: string)
  {
    Contains(lower, "código") || Contains(lower, "sistema") || Contains(lower, "servidor")
  }

  // ---------------------------------------------------------------------
  // Image-generation requests

  const ImageVerbs: seq<string> := ["gera", "cria", "desenha", "faz", "mostra"]
  const ImageNouns: seq<string> := ["imagem", "foto", "desenho", "ilustração", "pintura", "retrato"]

  /** An alternative of the group `(gera|cria|desenha|faz|mostra)` ends at
      index `e`. */
  predicate VerbEndsAt(s: string, e: int)
  {
    exists v | v in ImageVerbs :: OccursAt(s, v, e - |v|)
  }

  /** Index `j` holds the space of ` (imagem|foto|...)`, followed by a noun. */
  predicate NounAfterSpace(s: string, j: int)
  {
    0 <= j < |s| && s[j] == ' ' && exists n | n in ImageNouns :: OccursAt(s, n, j + 1)
  }

  /** `.*` can cover `s[e..j]`: the regular-expression dot matches anything
      but a line terminator. */
  predicate DotsCover(s: string, e: int, j: int)
  {
    0 <= e <= j <= |s| && forall k | e <= k < j :: !IsLineTerminator(s[k])
  }

  /** The regular expression `(gera|cria|desenha|faz|mostra).* (imagem|foto|
      desenho|ilustração|pintura|retrato)` matches somewhere in `s`. */
  predicate ImagePattern(s: string)
  {
    exists e, j | 0 <= e <= j < |s| :: VerbEndsAt(s, e) && DotsCover(s, e, j) && NounAfterSpace(s, j)
  }

  /** The image test of `analyzeContext` on the lower-cased input. */
  predicate IsImageRequest(lower: string)
  {
    ImagePattern(lower) || StartsWith(lower, "imagem de") || StartsWith(lower, "foto de")
  }

  // ---------------------------------------------------------------------
  // The frequency key

  /** `lower.split(' ')[0] || 'unknown'`. */
  function CommandKey(lower: string): (k: string)
  {
    var first := TakeUntil(lower, ' ');
    if first == "" then "unknown" else first
  }

  // ---------------------------------------------------------------------
  // The decision, stated rule by rule

  /** The score: the sum of the bonuses of the categories that fire, each
      at most once. The image test takes no part in it. */
  function Score(lower: string, frequent: bool): (points: int)
  {
    (if frequent then RepeatBonus else 0)
    + (if Urgent(lower) then UrgencyBonus else 0)
    + (if Analytic(lower) then AnalyticBonus else 0)
    + (if Social(lower) then SocialBonus else 0)
    + (if Engineering(lower) then EngineeringBonus else 0)
  }

  /** The tone: the engineering rule is applied last, so it wins whenever it
      fires; otherwise a greeting sets the casual tone. */
  function Tone(lower: string): (chosen: string)
  {
    if Engineering(lower) then EngineeringTone
    else if Social(lower) then CasualTone
    else DefaultTone
  }

  function NoteIf(b: bool, note: string): (notes: seq<string>)
  {
    if b then [note] else []
  }

  /** The entries between the start line and the decision line, in the
      order the rules run. */
  function Notes(lower: string, key: string, frequent: bool): (entries: seq<string>)
  {
    NoteIf(IsImageRequest(lower), ImageNote)
    + NoteIf(frequent, FrequentNote(key))
    + [SemanticNote]
    + NoteIf(Urgent(lower), CriticalNote)
    + NoteIf(Analytic(lower), AnalyticNote)
    + NoteIf(Social(lower), SocialNote)
    + NoteIf(Engineering(lower), EngineeringNote)
  }

  /** The closing line of the trace. */
  function DecisionLine(score: int): (line: string)
  {
    if score >= StrategyThreshold then StrategicDecision else StandardDecision
  }

  /** The reasoning trace. */
  function Trace(lower: string, key: string, frequent: bool): (trace: seq<string>)
  {
    [StartNote] + Notes(lower, key, frequent) + [DecisionLine(Score(lower, frequent))]
  }

  /** The trace as the rules write it, one entry appended at a time. */
  lemma TraceInRuleOrder(lower: string, key: string, frequent: bool)
    ensures Trace(lower, key, frequent)
      == [StartNote] + NoteIf(IsImageRequest(lower), ImageNote) + NoteIf(frequent, FrequentNote(key))
         + [SemanticNote] + NoteIf(Urgent(lower), CriticalNote) + NoteIf(Analytic(lower), AnalyticNote)
         + NoteIf(Social(lower), SocialNote) + NoteIf(Engineering(lower), EngineeringNote)
         + [DecisionLine(Score(lower, frequent))]
  {
    Regroup([StartNote], NoteIf(IsImageRequest(lower), ImageNote), NoteIf(frequent, FrequentNote(key)),
      [SemanticNote], NoteIf(Urgent(lower), CriticalNote), NoteIf(Analytic(lower), AnalyticNote),
      NoteIf(Social(lower), SocialNote), NoteIf(Engineering(lower), EngineeringNote),
      [DecisionLine(Score(lower, frequent))]);
  }

  /** The notes keep the order of the rules: when the urgency rule and the
      engineering rule both fire, the critical note comes before the
      engineering note; when a greeting and an engineering word both occur,
      the greeting's note comes before the engineering note, which is why
      the engineering tone wins. */
  lemma RuleNotesInOrder(lower: string, key: string, frequent: bool)
    ensures var t := Trace(lower, key, frequent);
      Urgent(lower) && Engineering(lower) ==>
        exists i, j | 0 <= i < j < |t| :: t[i] == CriticalNote && t[j] == EngineeringNote
    ensures var t := Trace(lower, key, frequent);
      Social(lower) && Engineering(lower) ==>
        exists i, j | 0 <= i < j < |t| :: t[i] == SocialNote && t[j] == EngineeringNote
  {
    var t := Trace(lower, key, frequent);
    var head := [StartNote] + NoteIf(IsImageRequest(lower), ImageNote) + NoteIf(frequent, FrequentNote(key))
                + [SemanticNote];
    var u := NoteIf(Urgent(lower), CriticalNote);
    var a := NoteIf(Analytic(lower), AnalyticNote);
    var so := NoteIf(Social(lower), SocialNote);
    var en := NoteIf(Engineering(lower), EngineeringNote);
    var last := [DecisionLine(Score(lower, frequent))];
    TraceInRuleOrder(lower, key, frequent);
    assert t == head + u + a + so + en + last;
    if Engineering(lower) {
      var j := |head| + |u| + |a| + |so|;
      assert t[j] == EngineeringNote;
      if Urgent(lower) {
        assert t[|head|] == CriticalNote;
      }
      if Social(lower) {
        assert t[j - 1] == SocialNote;
      }
    }
  }

  lemma Regroup(s0: seq<string>, s1: seq<string>, s2: seq<string>, s3: seq<string>, s4: seq<string>,
                s5: seq<string>, s6: seq<string>, s7: seq<string>, s8: seq<string>)
    ensures s0 + (s1 + s2 + s3 + s4 + s5 + s6 + s7) + s8 == s0 + s1 + s2 + s3 + s4 + s5 + s6 + s7 + s8
  {
  }

  /** The whole decision for a lower-cased input whose command key is `key`. */
  function Decide(lower: string, key: string, frequent: bool): (decision: Decision)
  {
    var score := Score(lower, frequent);
    Decision(score, Tone(lower), score >= StrategyThreshold, Trace(lower, key, frequent), IsImageRequest(lower))
  }

  // ---------------------------------------------------------------------
  // Properties

  /** The score lies in 0..135: five bonuses, each counted at most once. */
  lemma ScoreBounds(lower: string, frequent: bool)
    ensures 0 <= Score(lower, frequent) <= RepeatBonus + UrgencyBonus + AnalyticBonus + SocialBonus + EngineeringBonus
    ensures Score(lower, frequent) <= 135
  {
  }

  /** Strategy mode is on iff an urgency word occurs, or an engineering word
      occurs together with an analytic word or a greeting. The +5 for a
      repeated command never tips the balance, since no other combination
      of bonuses lands in 45..49. */
  lemma StrategyByKeywords(lower: string, key: string, frequent: bool)
    ensures Decide(lower, key, frequent).requiresStrategy
            <==> Urgent(lower) || (Engineering(lower) && (Analytic(lower) || Social(lower)))
    ensures Decide(lower, key, frequent).requiresStrategy == Decide(lower, key, !frequent).requiresStrategy
  {
  }

  /** Any urgency word forces strategy mode. */
  lemma UrgencyForcesStrategy(lower: string, key: string, frequent: bool)
    requires Urgent(lower)
    ensures Decide(lower, key, frequent).score >= StrategyThreshold
    ensures Decide(lower, key, frequent).requiresStrategy
  {
  }

  predicate IsDecisionLine(line: string)
  {
    StartsWith(line, DecisionPrefix)
  }

  /** Every entry between the start line and the decision line opens with
      something other than `DECISÃO:`. */
  lemma NotesAreNotDecisions(lower: string, key: string, frequent: bool)
    ensures forall x | x in Notes(lower, key, frequent) :: !IsDecisionLine(x)
  {
    forall x | x in Notes(lower, key, frequent)
      ensures !IsDecisionLine(x)
    {
      assert x == FrequentNote(key)
        || x in [ImageNote, SemanticNote, CriticalNote, AnalyticNote, SocialNote, EngineeringNote];
      assert |x| > 0 && x[0] != 'D';
      assert DecisionPrefix[0] == 'D';
    }
  }

  /** The trace opens with the start line and closes with its only
      `DECISÃO:` line, which announces strategy mode iff the score reaches
      50. */
  lemma TraceShape(lower: string, key: string, frequent: bool)
    ensures var t := Trace(lower, key, frequent);
      && |t| >= 3 && t[0] == StartNote
      && t[|t| - 1] == (if Score(lower, frequent) >= StrategyThreshold then StrategicDecision else StandardDecision)
      && |Seqs.Filter(t, IsDecisionLine)| == 1
  {
    var notes := Notes(lower, key, frequent);
    var last := DecisionLine(Score(lower, frequent));
    NotesAreNotDecisions(lower, key, frequent);
    Seqs.FilterEmpty(notes, IsDecisionLine);
    Seqs.FilterEmpty([StartNote], IsDecisionLine);
    Seqs.FilterAppend([StartNote], notes, IsDecisionLine);
    Seqs.FilterAppend([StartNote] + notes, [last], IsDecisionLine);
    assert StartNote[0] == 'A' && DecisionPrefix[0] == 'D';
    assert IsDecisionLine(last);
    assert [last][1..] == [];
    assert Seqs.Filter([last], IsDecisionLine) == [last];
    assert Trace(lower, key, frequent) == [StartNote] + notes + [last];
  }

  /** The frequent-command entry differs from every other entry. */
  lemma FrequentNoteDistinct(key: string)
    ensures FrequentNote(key) !in [StartNote, ImageNote, SemanticNote, CriticalNote, AnalyticNote,
                                   SocialNote, EngineeringNote, StrategicDecision, StandardDecision]
  {
    var f := FrequentNote(key);
    assert f[0] == 'I' && f[6] == 'P' && f[7] == 'a';
    assert ImageNote[7] == 'e';
  }

  /** The frequent-command entry is in the trace iff the repeat bonus was
      added. */
  lemma FrequentNoteIff(lower: string, key: string, frequent: bool)
    ensures FrequentNote(key) in Trace(lower, key, frequent) <==> frequent
  {
    FrequentNoteDistinct(key);
  }

  /** The image flag is set when a leading "imagem de"/"foto de" or a verb
      followed later on the same line by a space and a noun is present. */
  lemma ImageRequestByPattern(lower: string, v: string, e: int, j: int, n: string)
    requires v in ImageVerbs && n in ImageNouns
    requires OccursAt(lower, v, e - |v|) && DotsCover(lower, e, j)
    requires j < |lower| && lower[j] == ' ' && OccursAt(lower, n, j + 1)
    ensures IsImageRequest(lower)
    ensures Decide(lower, CommandKey(lower), false).isImageRequest
    ensures ImageNote in Trace(lower, CommandKey(lower), false)
  {
    assert VerbEndsAt(lower, e) && NounAfterSpace(lower, j);
  }

  /** Example: "gera uma imagem de um gato" is an image request. */
  lemma ImageExample()
    ensures IsImageRequest("gera uma imagem de um gato")
  {
    var s := "gera uma imagem de um gato";
    assert s[0..4] == "gera";
    assert s[9..15] == "imagem";
    ImageRequestByPattern(s, "gera", 4, 8, "imagem");
  }

  /** The command key is the text before the first space, or "unknown" when
      that text is empty (empty input, or a leading space). */
  lemma CommandKeyShape(lower: string)
    ensures CommandKey(lower) == "unknown" || (StartsWith(lower, CommandKey(lower)) && ' ' !in CommandKey(lower))
    ensures (|lower| == 0 || lower[0] == ' ') ==> CommandKey(lower) == "unknown"
    ensures (|lower| > 0 && lower[0] != ' ') ==> StartsWith(lower, CommandKey(lower))
    ensures StartsWith(lower, CommandKey(lower)) && |CommandKey(lower)| < |lower| ==> lower[|CommandKey(lower)|] == ' '
  {
  }

  /** A word containing a letter that the text lacks does not occur in it. */
  lemma AbsentWord(s: string, w: string, c: char)
    requires c in w && c !in s
    ensures forall i :: !OccursAt(s, w, i)
  {
    NotContainsByChar(s, w, c);
  }

  /** The example text, lower-cased. */
  const ExampleLower := "isto é " + "urgente" + ", há um erro no " + "servidor"

  lemma ExampleLowering()
    ensures Lower("Isto é urgente, há um erro no servidor") == ExampleLower
  {
    var a, b, c, d := "Isto é ", "urgente", ", há um erro no ", "servidor";
    assert "Isto é urgente, há um erro no servidor" == a + b + c + d;
    assert Lower(a) == "isto é " by {}
    assert Lower(b) == b by {}
    assert Lower(c) == c by {}
    assert Lower(d) == d by {}
    LowerAppend(a, b);
    LowerAppend(a + b, c);
    LowerAppend(a + b + c, d);
  }

  /** The example mentions an urgency and the server. */
  lemma ExampleKeywords()
    ensures Urgent(ExampleLower) && Engineering(ExampleLower)
  {
    var s := ExampleLower;
    assert s[7..14] == "urgente";
    assert OccursAt(s, "urgente", 7);
    assert s[30..38] == "servidor";
    assert OccursAt(s, "servidor", 30);
  }

  /** The example asks for no analysis. */
  lemma ExampleNotAnalytic()
    ensures !Analytic(ExampleLower)
  {
    var s := ExampleLower;
    ExampleLacksC();
    ExampleLacksP();
    ExampleLacksL();
    assert !Contains(s, "como") by { NotContainsByChar(s, "como", 'c'); }
    assert !Contains(s, "porquê") by { NotContainsByChar(s, "porquê", 'p'); }
    assert !Contains(s, "analisa") by { NotContainsByChar(s, "analisa", 'l'); }
    assert !Contains(s, "explica") by { NotContainsByChar(s, "explica", 'c'); }
  }

  /** The example does not greet. */
  lemma ExampleNotSocial()
    ensures !Social(ExampleLower)
  {
    var s := ExampleLower;
    ExampleLacksL();
    ExampleLacksB();
    assert !Contains(s, "olá") by { NotContainsByChar(s, "olá", 'l'); }
    assert !Contains(s, "bom dia") by { NotContainsByChar(s, "bom dia", 'b'); }
    assert !Contains(s, "tudo bem") by { NotContainsByChar(s, "tudo bem", 'b'); }
  }

  lemma ExampleLacksC()
    ensures 'c' !in ExampleLower
  {
  }

  lemma ExampleLacksP()
    ensures 'p' !in ExampleLower
  {
  }

  lemma ExampleLacksL()
    ensures 'l' !in ExampleLower
  {
  }

  lemma ExampleLacksB()
    ensures 'b' !in ExampleLower
  {
  }

  /** The example names no drawing verb and does not start with a noun. */
  lemma ExampleNotImage()
    ensures !IsImageRequest(ExampleLower)
  {
    var s := ExampleLower;
    // every verb of the image pattern holds a plain 'a', which the text lacks
    forall v | v in ImageVerbs
      ensures forall i :: !OccursAt(s, v, i)
    {
      AbsentWord(s, v, 'a');
    }
    assert !ImagePattern(s);
    assert s[1] != "imagem de"[1] && s[0] != "foto de"[0];
  }

  /** An urgent report of a server error: "Isto é urgente, há um erro no
      servidor", with a command seen for the first time, scores 50 + 40 = 90,
      takes the engineering tone and turns strategy mode on; it is not an
      image request. */
  lemma UrgentServerExample()
    ensures var lower := Lower("Isto é urgente, há um erro no servidor");
      var d := Decide(lower, CommandKey(lower), false);
      && d.score == 90 && d.tone == EngineeringTone && d.requiresStrategy && !d.isImageRequest
  {
    ExampleLowering();
    ExampleKeywords();
    ExampleNotAnalytic();
    ExampleNotSocial();
    ExampleNotImage();
  }
}
