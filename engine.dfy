/** The engine object: its long-term memory cache and its command frequency
    counter, with the two operations that change them (`saveToLTM` and
    `analyzeContext`) and the ones that read them. Persistence to the
    server is an effect outside the model; when it fails, the engine keeps
    the cache it has. */
module Engine {
  import opened Wrappers
  import opened Text
  import opened LongTermMemory
  import opened ContextAnalysis

  // ---------------------------------------------------------------------
  // The command frequency counter

  /** `commandHistory[key] || 0`: a key never seen counts zero. */
  function Count(h: map<string, int>, key: string): (uses: int)
  {
    if key in h then h[key] else 0
  }

  /** One more use of `key`; every other key keeps its count. */
  function Record(h: map<string, int>, key: string): (r: map<string, int>)
    ensures forall k :: Count(r, k) == Count(h, k) + (if k == key then 1 else 0)
    ensures r.Keys == h.Keys + {key}
  {
    h[key := Count(h, key) + 1]
  }

  /** The counter after recording `keys` in order. */
  function Replay(h: map<string, int>, keys: seq<string>): (counts: map<string, int>)
    decreases |keys|
  {
    if |keys| == 0 then h else Replay(Record(h, keys[0]), keys[1..])
  }

  /** After a run of commands each key has been counted once per use. */
  lemma {:induction false} ReplayCounts(h: map<string, int>, keys: seq<string>, k: string)
    ensures Count(Replay(h, keys), k) == Count(h, k) + multiset(keys)[k]
    decreases |keys|
  {
    if |keys| > 0 {
      ReplayCounts(Record(h, keys[0]), keys[1..], k);
      assert keys == [keys[0]] + keys[1..];
    }
  }

  /** Starting from a fresh engine, the repeat bonus is given to a command
      exactly when its key was used at least three times before. */
  lemma RepeatBonusIff(earlier: seq<string>, key: string)
    ensures Count(Record(Replay(map[], earlier), key), key) > 3 <==> multiset(earlier)[key] >= 3
  {
    ReplayCounts(map[], earlier, key);
  }

  /** The fourth use of the same key is the first to earn the bonus. */
  lemma FourthUseEarnsBonus(key: string)
    ensures Count(Record(Replay(map[], [key, key]), key), key) == 3
    ensures Count(Record(Replay(map[], [key, key, key]), key), key) == 4
  {
    RepeatBonusIff([key, key], key);
    RepeatBonusIff([key, key, key], key);
    ReplayCounts(map[], [key, key], key);
    ReplayCounts(map[], [key, key, key], key);
  }

  // ---------------------------------------------------------------------
  // The engine

  class JarvisEngine {
    var ltmCache: seq<Memory>
    var commandHistory: map<string, int>

    /** A fresh engine remembers nothing and has counted nothing; the
        stored memory arrives later through `LoadLTM`. */
    constructor()
      ensures ltmCache == [] && commandHistory == map[]
    {
      ltmCache := [];
      commandHistory := map[];
    }

    /** `loadLTM`: the records the server holds under the memory key, when
        the request succeeds and the key is there; otherwise the cache is
        left as it was. */
    method LoadLTM(stored: Option<seq<Memory>>)
      modifies this
      ensures ltmCache == if stored.Some? then stored.value else old(ltmCache)
      ensures commandHistory == old(commandHistory)
    {
      if stored.Some? {
        ltmCache := stored.value;
      }
    }

    /** `getLTM` */
    function GetLTM(): (cache: seq<Memory>)
      reads this
    {
      ltmCache
    }

    /** `saveToLTM`: a new record whose id is the decimal clock reading
        `idClock` and whose timestamp is `stampClock` is appended, the list
        is sorted by importance and cut to fifty records. Whatever the cache
        held before, it ends sorted and within capacity. */
    method SaveToLTM(content: string, importance: int, idClock: nat, stampClock: nat)
      modifies this
      ensures ltmCache == Consolidate(old(ltmCache), Memory(NatToString(idClock), content, importance, stampClock))
      ensures SortedByImportance(ltmCache) && |ltmCache| <= Capacity
      ensures commandHistory == old(commandHistory)
    {
      var cache := GetLTM();
      var record := Memory(NatToString(idClock), content, importance, stampClock);
      var n := |cache|;
      var memories := new Memory[n + 1](i requires 0 <= i <= n => if i < n then cache[i] else record);
      assert memories[..] == cache + [record];
      SortInPlace(memories);
      ltmCache := if memories.Length <= Capacity then memories[..] else memories[..Capacity];
      ConsolidateShape(cache, record);
    }

    /** `getLTMAsString` */
    function GetLTMAsString(): (rendered: string)
      reads this
    {
      RenderMemories(ltmCache)
    }

    /** `commandHistory[key] = (commandHistory[key] || 0) + 1`, giving back
        the new count. */
    method CountCommand(key: string) returns (uses: int)
      modifies this
      ensures commandHistory == Record(old(commandHistory), key)
      ensures uses == Count(commandHistory, key) == Count(old(commandHistory), key) + 1
      ensures ltmCache == old(ltmCache)
    {
      commandHistory := commandHistory[key := Count(commandHistory, key) + 1];
      uses := commandHistory[key];
    }

    /** One step of the rule sequence of `analyzeContext`: when the rule
        fires it adds its bonus to the score and its note to the trace. It
        only passes values along; what the rules together promise is stated
        by `AnalyzeContext` and the lemmas about `Decide`. */
    static method ApplyRule(fires: bool, bonus: int, note: string, score: int, reasoning: seq<string>)
      returns (score': int, reasoning': seq<string>)
      ensures score' == score + (if fires then bonus else 0)
      ensures reasoning' == reasoning + NoteIf(fires, note)
    {
      score', reasoning' := score, reasoning;
      if fires {
        score' := score' + bonus;
        reasoning' := reasoning' + [note];
      }
    }

    /** `analyzeContext`: counts the command, then runs the rules one by
        one, adding to the score, setting the tone and writing the trace.
        The result is the decision of the rules for the lower-cased input,
        with the repeat bonus given when the key has now been seen more than
        three times; the counter gains one use of the key and nothing else. */
    method AnalyzeContext(input: string) returns (d: Decision)
      modifies this
      ensures var lower := Lower(input); var key := CommandKey(lower);
        && commandHistory == Record(old(commandHistory), key)
        && d == Decide(lower, key, Count(commandHistory, key) > 3)
      ensures ltmCache == old(ltmCache)
    {
      var lower := Lower(input);
      var score := 0;
      var tone := DefaultTone;
      var reasoning := [StartNote];

      var isImageRequest := IsImageRequest(lower);
      score, reasoning := ApplyRule(isImageRequest, 0, ImageNote, score, reasoning);

      var key := CommandKey(lower);
      var uses := CountCommand(key);
      var frequent := uses > 3;
      score, reasoning := ApplyRule(frequent, RepeatBonus, FrequentNote(key), score, reasoning);

      reasoning := reasoning + [SemanticNote];
      var urgent := Urgent(lower);
      score, reasoning := ApplyRule(urgent, UrgencyBonus, CriticalNote, score, reasoning);
      var analytic := Analytic(lower);
      score, reasoning := ApplyRule(analytic, AnalyticBonus, AnalyticNote, score, reasoning);
      var social := Social(lower);
      if social {
        tone := CasualTone;
      }
      score, reasoning := ApplyRule(social, SocialBonus, SocialNote, score, reasoning);
      var engineering := Engineering(lower);
      if engineering {
        tone := EngineeringTone;
      }
      score, reasoning := ApplyRule(engineering, EngineeringBonus, EngineeringNote, score, reasoning);
      assert score == Score(lower, frequent) && tone == Tone(lower);

      var requiresStrategy := score >= StrategyThreshold;
      if requiresStrategy {
        reasoning := reasoning + [StrategicDecision];
      } else {
        reasoning := reasoning + [StandardDecision];
      }
      TraceInRuleOrder(lower, key, frequent);
      assert reasoning == Trace(lower, key, frequent);
      d := Decision(score, tone, requiresStrategy, reasoning, isImageRequest);
    }
  }
}
