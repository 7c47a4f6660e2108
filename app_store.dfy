/**
 * The application store: who is signed in, whether the session has been
 * checked, the user's profile and the badges the user has collected.  It is
 * one mutable record; every setter replaces the fields it names and leaves
 * the rest alone.
 */
module AppStoreModel {
  import opened Common

  datatype Theme = Light | Dark

  /** The signed-in account as the auth service reports it; the email may be absent. */
  datatype User = User(id: string, email: Option<string>)

  datatype UserInfo = UserInfo(nickname: string, interests: seq<string>, theme: Theme, email: string)

  /** A partial profile: the fields present are the ones to overwrite. */
  datatype InfoPatch = InfoPatch(nickname: Option<string>, interests: Option<seq<string>>,
                                 theme: Option<Theme>, email: Option<string>)

  datatype Coords = Coords(lat: real, lng: real)

  datatype UserBadge = UserBadge(
    id: string, name: string, location: string, locationCoords: Option<Coords>,
    date: string, tags: seq<string>, imageUrl: string,
    contsName: Option<string>, description: Option<string>)

  /** A snapshot of every field of the store. */
  datatype AppState = AppState(user: Option<User>, isLoggedIn: bool, hasCheckedSession: bool,
                               userInfo: UserInfo, myBadges: seq<UserBadge>)

  // ---------------------------------------------------------------------
  // Profile merge
  // ---------------------------------------------------------------------

  const NoChange: InfoPatch := InfoPatch(None, None, None, None)

  function Pick<T>(patch: Option<T>, current: T): T
  {
    if patch.Some? then patch.value else current
  }

  /** `{ ...info, ...patch }`: the later object's keys win. */
  function Merge(info: UserInfo, patch: InfoPatch): UserInfo
  {
    UserInfo(Pick(patch.nickname, info.nickname), Pick(patch.interests, info.interests),
             Pick(patch.theme, info.theme), Pick(patch.email, info.email))
  }

  /** `{ ...p, ...q }` on two partial profiles. */
  function Combine(p: InfoPatch, q: InfoPatch): InfoPatch
  {
    InfoPatch(if q.nickname.Some? then q.nickname else p.nickname,
              if q.interests.Some? then q.interests else p.interests,
              if q.theme.Some? then q.theme else p.theme,
              if q.email.Some? then q.email else p.email)
  }

  /**
   * A merge overwrites exactly the fields the patch carries: a carried field
   * takes the patch's value, every other field keeps its old value.  Hence an
   * empty patch changes nothing and applying a patch twice is applying it once.
   */
  lemma MergeFacts(info: UserInfo, patch: InfoPatch)
    ensures patch.nickname.Some? ==> Merge(info, patch).nickname == patch.nickname.value
    ensures patch.nickname.None? ==> Merge(info, patch).nickname == info.nickname
    ensures patch.interests.Some? ==> Merge(info, patch).interests == patch.interests.value
    ensures patch.interests.None? ==> Merge(info, patch).interests == info.interests
    ensures patch.theme.Some? ==> Merge(info, patch).theme == patch.theme.value
    ensures patch.theme.None? ==> Merge(info, patch).theme == info.theme
    ensures patch.email.Some? ==> Merge(info, patch).email == patch.email.value
    ensures patch.email.None? ==> Merge(info, patch).email == info.email
    ensures Merge(info, NoChange) == info
    ensures Merge(Merge(info, patch), patch) == Merge(info, patch)
  {
  }

  /** Two successive merges are one merge with the combined patch. */
  lemma MergeCombine(info: UserInfo, p: InfoPatch, q: InfoPatch)
    ensures Merge(Merge(info, p), q) == Merge(info, Combine(p, q))
  {
  }

  // ---------------------------------------------------------------------
  // Badge list
  // ---------------------------------------------------------------------

  /** `badges.filter(b => b.id !== id)` */
  function RemoveById(badges: seq<UserBadge>, id: string): seq<UserBadge>
    decreases |badges|
  {
    if badges == [] then []
    else if badges[0].id != id then [badges[0]] + RemoveById(badges[1..], id)
    else RemoveById(badges[1..], id)
  }

  /**
   * Removal leaves no badge with the id, keeps every badge with another id,
   * adds nothing, and never makes the list longer.
   */
  lemma {:induction false} RemoveByIdFacts(badges: seq<UserBadge>, id: string)
    ensures |RemoveById(badges, id)| <= |badges|
    ensures forall b :: b in RemoveById(badges, id) <==> b in badges && b.id != id
    decreases |badges|
  {
    if badges != [] {
      RemoveByIdFacts(badges[1..], id);
      assert badges == [badges[0]] + badges[1..];
    }
  }

  /** Removal commutes with concatenation, so the kept badges stay in their original order. */
  lemma {:induction false} RemoveByIdAppend(a: seq<UserBadge>, b: seq<UserBadge>, id: string)
    ensures RemoveById(a + b, id) == RemoveById(a, id) + RemoveById(b, id)
    decreases |a|
  {
    if a != [] {
      assert (a + b)[0] == a[0];
      assert (a + b)[1..] == a[1..] + b;
      RemoveByIdAppend(a[1..], b, id);
    } else {
      assert a + b == b;
    }
  }

  /** A list with no badge of that id is returned as it is. */
  lemma {:induction false} RemoveByIdAbsent(badges: seq<UserBadge>, id: string)
    requires forall i :: 0 <= i < |badges| ==> badges[i].id != id
    ensures RemoveById(badges, id) == badges
    decreases |badges|
  {
    if badges != [] {
      RemoveByIdAbsent(badges[1..], id);
      assert badges == [badges[0]] + badges[1..];
    }
  }

  /** Removing twice is removing once. */
  lemma RemoveByIdIdempotent(badges: seq<UserBadge>, id: string)
    ensures RemoveById(RemoveById(badges, id), id) == RemoveById(badges, id)
  {
    var r := RemoveById(badges, id);
    RemoveByIdFacts(badges, id);
    forall i | 0 <= i < |r|
      ensures r[i].id != id
    {
      assert r[i] in r;
    }
    RemoveByIdAbsent(r, id);
  }

  /** Adding a badge and removing its id leaves the rest of the list as removal alone would. */
  lemma AddThenRemove(badges: seq<UserBadge>, b: UserBadge)
    ensures RemoveById(badges + [b], b.id) == RemoveById(badges, b.id)
  {
    RemoveByIdAppend(badges, [b], b.id);
    assert RemoveById([b], b.id) == RemoveById([], b.id);
  }

  // ---------------------------------------------------------------------
  // Initial state
  // ---------------------------------------------------------------------

  function InitialUserInfo(): UserInfo
  {
    UserInfo("서울수집가", ["#카페투어", "#야경", "#한강"], Light, "")
  }

  function InitialBadges(): seq<UserBadge>
  {
    [ UserBadge("badge-changdeokgung", "창덕궁", "서울시 종로구 창덕궁",
                Some(Coords(37.579507458, 126.991076632)), "2024.11.01", ["#고궁", "#역사"],
                "/changduck.png", Some("창덕궁"), Some("아름다운 한국 전통 궁궐의 정수")),
      UserBadge("badge-ddp", "동대문디자인플라자", "서울시 중구 동대문디자인플라자",
                Some(Coords(37.567699688, 127.009847695)), "2024.11.05", ["#건축", "#디자인"],
                "/ddp.png", Some("동대문디자인플라자(DDP)"), Some("미래적인 디자인의 랜드마크")),
      UserBadge("badge-childrenpark", "서울어린이대공원", "서울시 광진구 서울어린이대공원",
                Some(Coords(37.549615186, 127.07823779)), "2024.11.10", ["#공원", "#가족나들이"],
                "/penguin.png", Some("서울어린이대공원 음악분수"), Some("가족과 함께하는 즐거운 공원")) ]
  }

  predicate DistinctIds(badges: seq<UserBadge>)
  {
    forall i, j :: 0 <= i < j < |badges| ==> badges[i].id != badges[j].id
  }

  /** The store starts signed out, unchecked and in light mode, with three seeded badges of distinct ids. */
  lemma InitialStateFacts()
    ensures |InitialBadges()| == 3 && DistinctIds(InitialBadges())
    ensures InitialUserInfo().theme == Light && InitialUserInfo().email == ""
  {
  }

  /** The user is signed in exactly when an account is present. */
  predicate LoginConsistent(s: AppState)
  {
    s.isLoggedIn == s.user.Some?
  }

  // ---------------------------------------------------------------------
  // The store
  // ---------------------------------------------------------------------

  class AppStore {
    var user: Option<User>
    var isLoggedIn: bool
    var hasCheckedSession: bool
    var userInfo: UserInfo
    var myBadges: seq<UserBadge>

    function State(): AppState
      reads this
    {
      AppState(user, isLoggedIn, hasCheckedSession, userInfo, myBadges)
    }

    constructor ()
      ensures State() == AppState(None, false, false, InitialUserInfo(), InitialBadges())
      ensures LoginConsistent(State())
    {
      user := None;
      isLoggedIn := false;
      hasCheckedSession := false;
      userInfo := InitialUserInfo();
      myBadges := InitialBadges();
    }

    /** Sets the account and keeps the signed-in flag in step with it. */
    method SetUser(u: Option<User>)
      modifies this
      ensures State() == old(State()).(user := u, isLoggedIn := u.Some?)
      ensures LoginConsistent(State())
    {
      user := u;
      isLoggedIn := u.Some?;
    }

    /** Sets the flag alone, which can leave it out of step with the account. */
    method SetIsLoggedIn(flag: bool)
      modifies this
      ensures State() == old(State()).(isLoggedIn := flag)
      ensures LoginConsistent(State()) <==> flag == old(user).Some?
    {
      isLoggedIn := flag;
    }

    method SetHasCheckedSession(checked: bool)
      modifies this
      ensures State() == old(State()).(hasCheckedSession := checked)
    {
      hasCheckedSession := checked;
    }

    method SetUserInfo(patch: InfoPatch)
      modifies this
      ensures State() == old(State()).(userInfo := Merge(old(userInfo), patch))
    {
      userInfo := Merge(userInfo, patch);
    }

    /** Appends at the end, with no check for an existing badge of the same id. */
    method AddBadge(b: UserBadge)
      modifies this
      ensures State() == old(State()).(myBadges := old(myBadges) + [b])
      ensures |myBadges| == |old(myBadges)| + 1 && myBadges[..|old(myBadges)|] == old(myBadges)
    {
      myBadges := myBadges + [b];
    }

    method RemoveBadge(id: string)
      modifies this
      ensures State() == old(State()).(myBadges := RemoveById(old(myBadges), id))
    {
      myBadges := RemoveById(myBadges, id);
    }

    method ClearBadges()
      modifies this
      ensures State() == old(State()).(myBadges := [])
    {
      myBadges := [];
    }
  }
}
