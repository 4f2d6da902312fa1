/** The admin panel's message buffer of `bot/handlers.py` (`_ADMIN_MSG_IDS`,
    `_track_admin_msg`, `_thanos_delete`) and the admin callbacks that feed
    and empty it. */
module AdminBuffer {
  import opened Wrappers

  /** `_ADMIN_MSG_LIMIT`: how many recent admin messages are remembered. */
  const Limit: nat := 6

  /** A sent message: `(chat_id, message_id)`. */
  type Entry = (int, int)

  /** `s[-n:]` when `s` is longer than `n`, else `s`: the newest `n` entries. */
  function LastN(s: seq<Entry>, n: nat): (r: seq<Entry>)
    ensures |r| == if |s| <= n then |s| else n
    ensures forall i :: 0 <= i < |r| ==> r[i] == s[|s| - |r| + i]
  {
    if |s| > n then s[|s| - n..] else s
  }

  /** Keeping only the newest entries after every append keeps the same
      entries as cutting the whole history once. */
  lemma LastNOfHistory(s: seq<Entry>, x: Entry, n: nat)
    requires n > 0
    ensures LastN(LastN(s, n) + [x], n) == LastN(s + [x], n)
  {
    var a := LastN(LastN(s, n) + [x], n);
    var b := LastN(s + [x], n);
    assert |a| == |b|;
    forall i | 0 <= i < |a| ensures a[i] == b[i] {
      if i == |a| - 1 {
      } else {
        var t := LastN(s, n);
        assert a[i] == (t + [x])[|t| + 1 - |a| + i];
        assert (s + [x])[|s| + 1 - |b| + i] == s[|s| + 1 - |b| + i];
      }
    }
  }

  /** `reversed(items)` */
  function Reversed(s: seq<Entry>): (r: seq<Entry>)
    ensures |r| == |s|
    ensures forall i :: 0 <= i < |s| ==> r[i] == s[|s| - 1 - i]
  {
    if s == [] then [] else [s[|s| - 1]] + Reversed(s[..|s| - 1])
  }

  /** `_ADMIN_MSG_IDS`: per admin user, the recent panel messages, oldest first. */
  class AdminMessages {
    var ids: map<int, seq<Entry>>

    constructor()
      ensures ids == map[]
    {
      ids := map[];
    }

    /** `_ADMIN_MSG_IDS.get(user_id, [])` */
    function Buffer(user: int): seq<Entry>
      reads this
    {
      if user in ids then ids[user] else []
    }

    /** `_track_admin_msg`: append, then keep the newest `Limit` entries; the
        other users' buffers do not change. */
    method Track(user: int, chat: int, msg: int)
      modifies this
      ensures ids == old(ids)[user := LastN(old(Buffer(user)) + [(chat, msg)], Limit)]
      ensures 0 < |Buffer(user)| <= Limit && Buffer(user)[|Buffer(user)| - 1] == (chat, msg)
      ensures forall u :: u != user ==> Buffer(u) == old(Buffer(u))
    {
      var buf := Buffer(user);
      buf := buf + [(chat, msg)];
      if |buf| > Limit {
        buf := buf[|buf| - Limit..];
      }
      ids := ids[user := buf];
    }

    /** `_thanos_delete`: one delete attempt per remembered message, newest
        first, whatever each attempt does; then the buffer is empty. */
    method ThanosDelete(user: int) returns (attempted: seq<Entry>)
      modifies this
      ensures attempted == Reversed(old(Buffer(user)))
      ensures ids == old(ids)[user := []]
    {
      var items := Buffer(user);
      attempted := [];
      var k := 0;
      while k < |items|
        invariant 0 <= k <= |items|
        invariant |attempted| == k
        invariant forall i :: 0 <= i < k ==> attempted[i] == items[|items| - 1 - i]
      {
        attempted := attempted + [items[|items| - 1 - k]];
        k := k + 1;
      }
      ids := ids[user := []];
    }

    /** `admin_menu_cb`, `admin_all_cb`, `admin_top_cb`: only the admin's
        callback sends a panel message, and that message is remembered. */
    method ShowPanel(caller: Option<int>, adminId: int, chat: int, sent: int)
      modifies this
      ensures caller != Some(adminId) ==> ids == old(ids)
      ensures caller == Some(adminId) ==>
        ids == old(ids)[adminId := LastN(old(Buffer(adminId)) + [(chat, sent)], Limit)]
    {
      if caller == Some(adminId) {
        Track(adminId, chat, sent);
      }
    }

    /** `admin_close_cb`: the admin's "close" remembers the panel message
        itself and then deletes everything remembered, newest first. */
    method Close(caller: Option<int>, adminId: int, chat: int, panelMsg: int)
      returns (attempted: seq<Entry>)
      modifies this
      ensures caller != Some(adminId) ==> ids == old(ids) && attempted == []
      ensures caller == Some(adminId) ==>
        && ids == old(ids)[adminId := []]
        && attempted == Reversed(LastN(old(Buffer(adminId)) + [(chat, panelMsg)], Limit))
        && attempted != [] && attempted[0] == (chat, panelMsg)
    {
      attempted := [];
      if caller == Some(adminId) {
        Track(adminId, chat, panelMsg);
        attempted := ThanosDelete(adminId);
      }
    }
  }
}
