/** The process-wide waiting queue of player names and the four request
    handlers that change it in place. Every handler answers with a status
    code and a message; the venue (`place`) it is given only selects where
    the queue would be persisted and never affects the in-memory list. */
module PlayerQueue {
  import opened Wrappers
  import opened JsString

  /** Status code and message of a handler's reply. */
  datatype Response = Response(status: int, message: string)

  const AddedMsg: string := "플레이어가 추가되었습니다."
  const MissingNameMsg: string := "플레이어 이름을 제공하세요."
  const RemovedMsg: string := "플레이어가 제거되었습니다."
  const NotFoundMsg: string := "플레이어를 찾을 수 없습니다."
  const RenamedMsg: string := "플레이어 이름이 업데이트되었습니다."
  const UnknownPlayerMsg: string := "등록되지 않은 플레이어 이름입니다."
  const GameEndedMsg: string := "게임 종료"
  const TooFewPlayersMsg: string := "대기 중인 플레이어가 부족합니다."

  /** JavaScript truthiness of the submitted name: absent and empty are
      rejected, a blank name is not. */
  predicate IsProvided(name: Option<string>) {
    name.Some? && name.value != ""
  }

  /** `index >= 0 && index < length`, false for NaN (`None`). */
  predicate InRange(index: Option<int>, length: nat) {
    index.Some? && 0 <= index.value < length
  }

  /** `q.splice(i, 1)` on the value level: the element at `i` is gone and
      the others keep their order. */
  function RemovedAt(q: seq<string>, i: int): (r: seq<string>)
    requires 0 <= i < |q|
    ensures |r| == |q| - 1
    ensures forall k :: 0 <= k < i ==> r[k] == q[k]
    ensures forall k :: i <= k < |r| ==> r[k] == q[k + 1]
  {
    q[..i] + q[i + 1..]
  }

  /** Removing at an index takes out exactly that one occurrence. */
  lemma RemovedAtMultiset(q: seq<string>, i: int)
    requires 0 <= i < |q|
    ensures multiset(RemovedAt(q, i)) + multiset{q[i]} == multiset(q)
  {
    assert q == q[..i] + [q[i]] + q[i + 1..];
  }

  /** Ending a game is removing the head of the queue twice. */
  lemma DropTwoIsTwoRemovals(q: seq<string>)
    requires |q| > 1
    ensures RemovedAt(RemovedAt(q, 0), 0) == q[2..]
  {
  }

  /** Removing the player just added restores the queue. */
  lemma AddThenRemoveRestores(q: seq<string>, name: string)
    ensures RemovedAt(q + [name], |q|) == q
  {
  }

  class QueueState {
    /** The waiting players, front of the queue first. */
    var players: seq<string>

    /** Start-up: the queue holds the players stored for the default venue,
        or nothing when there is no stored record or it cannot be read. */
    constructor Init(stored: Option<seq<string>>)
      ensures players == (if stored.Some? then stored.value else [])
    {
      players := if stored.Some? then stored.value else [];
    }

    /** GET /players. */
    function List(): seq<string>
      reads this
    {
      players
    }

    /** POST /players: a provided name is appended at the back. */
    method AddPlayer(place: string, name: Option<string>) returns (res: Response)
      modifies this
      ensures !IsProvided(name) ==> res == Response(400, MissingNameMsg) && players == old(players)
      ensures IsProvided(name) ==> res == Response(201, AddedMsg) && players == old(players) + [name.value]
      ensures IsProvided(name) ==> |players| == |old(players)| + 1 && players[|players| - 1] == name.value
    {
      if !IsProvided(name) {
        return Response(400, MissingNameMsg);
      }
      players := players + [name.value];
      res := Response(201, AddedMsg);
    }

    /** DELETE /players/:index: the player at an existing position leaves
        the queue; everyone else keeps their order. */
    method RemovePlayer(place: string, index: Option<int>) returns (res: Response)
      modifies this
      ensures !InRange(index, |old(players)|) ==> res == Response(404, NotFoundMsg) && players == old(players)
      ensures InRange(index, |old(players)|) ==>
                res == Response(200, RemovedMsg) && players == RemovedAt(old(players), index.value)
    {
      if InRange(index, |players|) {
        players := RemovedAt(players, index.value);
        return Response(200, RemovedMsg);
      }
      res := Response(404, NotFoundMsg);
    }

    /** PUT /players/:index: the player at an existing position gets the
        trimmed new name, provided it is not blank; nothing else moves. */
    method UpdatePlayerName(place: string, index: Option<int>, newName: string) returns (res: Response)
      modifies this
      ensures !(InRange(index, |old(players)|) && Trim(newName) != "") ==>
                res == Response(404, UnknownPlayerMsg) && players == old(players)
      ensures InRange(index, |old(players)|) && Trim(newName) != "" ==>
                res == Response(200, RenamedMsg)
                && |players| == |old(players)|
                && players[index.value] == Trim(newName)
                && forall k :: 0 <= k < |players| && k != index.value ==> players[k] == old(players)[k]
    {
      if InRange(index, |players|) && Trim(newName) != "" {
        players := players[index.value := Trim(newName)];
        return Response(200, RenamedMsg);
      }
      res := Response(404, UnknownPlayerMsg);
    }

    /** DELETE /endCurrentGame: the two players at the front, who just
        played, leave the queue. */
    method EndCurrentGame(place: string) returns (res: Response)
      modifies this
      ensures |old(players)| <= 1 ==> res == Response(400, TooFewPlayersMsg) && players == old(players)
      ensures |old(players)| > 1 ==> res == Response(200, GameEndedMsg) && players == old(players)[2..]
    {
      if |players| > 1 {
        players := players[2..];
        res := Response(200, GameEndedMsg);
      } else {
        res := Response(400, TooFewPlayersMsg);
      }
    }
  }

  /** A session on a fresh queue: add "Alice" at court 1, list, remove
      position 0, list. */
  method AliceSession() returns (statuses: seq<int>, listings: seq<seq<string>>)
    ensures statuses == [201, 200]
    ensures listings == [["Alice"], []]
  {
    var queue := new QueueState.Init(None);
    var added := queue.AddPlayer("court1", Some("Alice"));
    var afterAdd := queue.List();
    var removed := queue.RemovePlayer("court1", Some(0));
    var afterRemove := queue.List();
    statuses := [added.status, removed.status];
    listings := [afterAdd, afterRemove];
  }

  /** A game cycle: four players wait, the first two finish a game, a
      NaN position and an out-of-range one are refused, and a game with a
      single player left cannot be ended. */
  method GameCycle() returns (statuses: seq<int>, remaining: seq<string>)
    ensures statuses == [200, 404, 200, 404, 400]
    ensures remaining == ["Dan"]
  {
    var queue := new QueueState.Init(Some(["Ann", "Bo", "Cy", "Dan"]));
    var ended := queue.EndCurrentGame("court1");
    assert queue.players == ["Cy", "Dan"];
    var nan := queue.RemovePlayer("court1", None);
    var gone := queue.RemovePlayer("court1", Some(0));
    assert queue.players == ["Dan"];
    var past := queue.RemovePlayer("court1", Some(1));
    var tooFew := queue.EndCurrentGame("court1");
    statuses := [ended.status, nan.status, gone.status, past.status, tooFew.status];
    remaining := queue.List();
  }

  /** Renaming: a blank new name is refused, a padded one is stored
      trimmed. */
  method RenameSession() returns (statuses: seq<int>, listing: seq<string>)
    ensures statuses == [404, 200]
    ensures listing == ["Ann", "Dee"]
  {
    var queue := new QueueState.Init(Some(["Ann", "Bo"]));
    TrimEmptyIff(" \t ");
    var blank := queue.UpdatePlayerName("court1", Some(0), " \t ");
    TrimCharacterization("  ", "Dee", "\n");
    assert "  " + "Dee" + "\n" == "  Dee\n";
    var renamed := queue.UpdatePlayerName("court1", Some(1), "  Dee\n");
    statuses := [blank.status, renamed.status];
    listing := queue.List();
  }
}
