/**
 * The lesson actions: recording a completed challenge and losing a heart
 * after a wrong answer.
 */
module Challenge {
  import opened Wrappers
  import opened GameStore

  const UNAUTHORIZED: string := "Unauthorized"
  const PROGRESS_NOT_FOUND: string := "User progress not found"
  const NO_HEARTS: string := "hearts"

  datatype ChallengeStep = ChallengeStep(reply: Reply, challenges: map<(string, int), bool>)

  /** `upsertChallengeProgress`: the record is updated to completed when it
      exists and inserted completed when it does not; one map update covers
      both the update and the insert. */
  function UpsertStep(challenges: map<(string, int), bool>, userId: Option<string>, challengeId: int): (s: ChallengeStep)
    ensures !Present(userId) <==> s == ChallengeStep(Thrown(UNAUTHORIZED), challenges)
    ensures s.reply == Success <==> Present(userId)
    ensures s.reply == Success ==>
              && (userId.value, challengeId) in s.challenges && s.challenges[(userId.value, challengeId)]
              && s.challenges.Keys == challenges.Keys + {(userId.value, challengeId)}
              && forall k :: k in challenges && k != (userId.value, challengeId) ==> s.challenges[k] == challenges[k]
  {
    if !Present(userId) then ChallengeStep(Thrown(UNAUTHORIZED), challenges)
    else
      ChallengeStep(Success, challenges[(userId.value, challengeId) := true])
  }

  method UpsertChallengeProgress(s: Store, userId: Option<string>, challengeId: int) returns (reply: Reply)
    modifies s
    ensures ChallengeStep(reply, s.challenges) == UpsertStep(old(s.challenges), userId, challengeId)
    ensures s.progress == old(s.progress) && s.redeemed == old(s.redeemed)
  {
    if !Present(userId) {
      return Thrown(UNAUTHORIZED);
    }
    // An update of the existing record or an insert of a new one.
    s.challenges := s.challenges[(userId.value, challengeId) := true];
    reply := Success;
  }

  /** Recording a challenge twice leaves the same table as once. */
  lemma UpsertIsIdempotent(challenges: map<(string, int), bool>, userId: Option<string>, challengeId: int)
    ensures var once := UpsertStep(challenges, userId, challengeId);
            UpsertStep(once.challenges, userId, challengeId) == once
  {
  }

  datatype HeartsStep = HeartsStep(reply: Reply, progress: map<string, UserProgress>)

  function Max(a: int, b: int): int {
    if a >= b then a else b
  }

  /** `reduceHearts`: `{ error: "hearts" }` at zero hearts; otherwise
      `max(hearts - 1, 0)`. */
  function ReduceStep(progress: map<string, UserProgress>, userId: Option<string>): (s: HeartsStep)
    ensures s.reply != Success ==> s.progress == progress
    ensures !Present(userId) ==> s.reply == Thrown(UNAUTHORIZED)
    ensures Present(userId) && userId.value !in progress ==> s.reply == Thrown(PROGRESS_NOT_FOUND)
    ensures s.reply == ErrorReply(NO_HEARTS) <==>
              Present(userId) && userId.value in progress && progress[userId.value].hearts == 0
    ensures s.reply == Success <==>
              Present(userId) && userId.value in progress && progress[userId.value].hearts != 0
    ensures s.reply == Success ==>
              var p := progress[userId.value];
              s.progress == progress[userId.value := p.(hearts := Max(p.hearts - 1, 0))]
  {
    if !Present(userId) then HeartsStep(Thrown(UNAUTHORIZED), progress)
    else if userId.value !in progress then HeartsStep(Thrown(PROGRESS_NOT_FOUND), progress)
    else
      var p := progress[userId.value];
      if p.hearts == 0 then HeartsStep(ErrorReply(NO_HEARTS), progress)
      else HeartsStep(Success, progress[userId.value := p.(hearts := Max(p.hearts - 1, 0))])
  }

  method ReduceHearts(s: Store, userId: Option<string>) returns (reply: Reply)
    modifies s
    ensures HeartsStep(reply, s.progress) == ReduceStep(old(s.progress), userId)
    ensures s.challenges == old(s.challenges) && s.redeemed == old(s.redeemed)
  {
    if !Present(userId) {
      return Thrown(UNAUTHORIZED);
    }
    if userId.value !in s.progress {
      return Thrown(PROGRESS_NOT_FOUND);
    }
    var existing := s.progress[userId.value];
    if existing.hearts == 0 {
      return ErrorReply(NO_HEARTS);
    }
    s.progress := s.progress[userId.value := existing.(hearts := Max(existing.hearts - 1, 0))];
    reply := Success;
  }

  /** A user with hearts loses exactly one, never going below zero, and
      nothing else of the row changes. */
  lemma ReduceTakesOneHeart(progress: map<string, UserProgress>, userId: string)
    requires userId != "" && userId in progress && progress[userId].hearts >= 1
    ensures var s := ReduceStep(progress, Some(userId));
            && s.reply == Success
            && s.progress[userId].hearts == progress[userId].hearts - 1 >= 0
            && s.progress[userId].(hearts := progress[userId].hearts) == progress[userId]
  {
  }

  /** A negative count, which the source does not rule out, is clamped to
      zero and the call still succeeds. */
  lemma ReduceClampsNegativeHearts(progress: map<string, UserProgress>, userId: string)
    requires userId != "" && userId in progress && progress[userId].hearts < 0
    ensures var s := ReduceStep(progress, Some(userId));
            && s.reply == Success
            && s.progress == progress[userId := progress[userId].(hearts := 0)]
  {
  }

  /** From any non-negative count, hearts stay non-negative. */
  lemma ReduceKeepsHeartsNonNegative(progress: map<string, UserProgress>, userId: Option<string>)
    requires forall u :: u in progress ==> progress[u].hearts >= 0
    ensures var s := ReduceStep(progress, userId);
            forall u :: u in s.progress ==> s.progress[u].hearts >= 0
  {
  }
}
