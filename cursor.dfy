/** The playlist cursor arithmetic that `Disk._move_song_index` and
    `Song._reset_song_index` share: the cursor is stepped first and corrected
    afterwards, for a playlist of `n` songs. */
module Cursor {

  /** The correction applied to the stepped cursor `p`: going "up", a cursor
      one or more past the last song returns to 0; going "down", a negative
      cursor goes to the last song; any other direction leaves `p` alone. */
  function Adjust(direction: string, p: int, n: int): int {
    if direction == "up" && p + 1 > n then 0
    else if direction == "down" && p < 0 then n - 1
    else p
  }

  /** The cursor after `next()` from `c`. */
  function Next(c: int, n: int): int {
    Adjust("up", c + 1, n)
  }

  /** The cursor after `prev()` from `c`. */
  function Prev(c: int, n: int): int {
    Adjust("down", c - 1, n)
  }

  /** From a valid cursor, `next()` moves to `(c + 1) mod n`: one step
      forward, or from the last song back to the first. */
  lemma NextWraps(c: int, n: int)
    requires 0 <= c < n
    ensures 0 <= Next(c, n) < n
    ensures Next(c, n) == (c + 1) % n
    ensures Next(c, n) == if c == n - 1 then 0 else c + 1
  {
    if c == n - 1 {
      assert (c + 1) % n == n % n == 0;
    } else {
      assert (c + 1) % n == c + 1;
    }
  }

  /** From a valid cursor, `prev()` moves to `(c - 1 + n) mod n`: one step
      back, or from the first song to the last. */
  lemma PrevWraps(c: int, n: int)
    requires 0 <= c < n
    ensures 0 <= Prev(c, n) < n
    ensures Prev(c, n) == (c - 1 + n) % n
    ensures Prev(c, n) == if c == 0 then n - 1 else c - 1
  {
    if c == 0 {
      assert (c - 1 + n) % n == n - 1;
    } else {
      assert (c - 1 + n) % n == ((c - 1) + n) % n == c - 1;
    }
  }

  /** `next()` repairs any cursor from -1 upwards: the cursor it leaves is
      always a valid position of a non-empty playlist, so a cursor past the
      end (left by `user_pick`) comes back to 0. */
  lemma NextRepairs(c: int, n: int)
    requires c >= -1 && n > 0
    ensures 0 <= Next(c, n) < n
    ensures c >= n - 1 ==> Next(c, n) == 0
  {
  }

  /** `prev()` undoes `next()` and `next()` undoes `prev()`. */
  lemma NextPrevRoundTrip(c: int, n: int)
    requires 0 <= c < n
    ensures Prev(Next(c, n), n) == c
    ensures Next(Prev(c, n), n) == c
  {
    NextWraps(c, n);
    PrevWraps(c, n);
  }

  /** The cursor after `k` calls to `next()` from `c`. */
  function NextTimes(c: int, k: nat, n: int): int {
    if k == 0 then c else Next(NextTimes(c, k - 1, n), n)
  }

  lemma {:induction false} NextTimesAdd(c: int, a: nat, b: nat, n: int)
    ensures NextTimes(c, a + b, n) == NextTimes(NextTimes(c, a, n), b, n)
  {
    if b > 0 {
      NextTimesAdd(c, a, b - 1, n);
    }
  }

  /** Before reaching the end, `k` calls to `next()` advance by `k`. */
  lemma {:induction false} NextTimesAdvances(c: int, k: nat, n: int)
    requires 0 <= c && c + k < n
    ensures NextTimes(c, k, n) == c + k
  {
    if k > 0 {
      NextTimesAdvances(c, k - 1, n);
    }
  }

  /** `n` calls to `next()` on a playlist of `n` songs return to the starting
      song. */
  lemma FullCycle(c: int, n: int)
    requires 0 <= c < n
    ensures NextTimes(c, n, n) == c
  {
    NextTimesAdvances(c, n - 1 - c, n);
    assert NextTimes(c, n - c, n) == 0;
    NextTimesAdd(c, n - c, c, n);
    if c > 0 {
      NextTimesAdvances(0, c, n);
    }
  }
}
