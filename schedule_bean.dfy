/**
 * The sample schedule entity (ScheduleBean): identity by schedule id, the lists of
 * participants and of dates, and the in-place merge of a new list of dates into
 * the existing date beans.
 */
module Schedule {

  /** A participant; only its id is read here. */
  datatype PersonBean = PersonBean(id: string)

  /** One scheduled date, owned by its schedule; only the fields used here. */
  class ScheduleDateBean {
    var schedule: ScheduleBean
    var scheduleDate: string

    constructor(schedule: ScheduleBean, scheduleDate: string)
      ensures this.schedule == schedule && this.scheduleDate == scheduleDate
    {
      this.schedule := schedule;
      this.scheduleDate := scheduleDate;
    }

    method SetScheduleDate(scheduleDate: string)
      modifies this`scheduleDate
      ensures this.scheduleDate == scheduleDate
    {
      this.scheduleDate := scheduleDate;
    }
  }

  /** Java `int` arithmetic: the value of `x` wrapped into the signed 32-bit range. */
  function Wrap32(x: int): (r: int)
    ensures -0x8000_0000 <= r < 0x8000_0000
    ensures (x - r) % 0x1_0000_0000 == 0
  {
    (x + 0x8000_0000) % 0x1_0000_0000 - 0x8000_0000
  }

  /** `String.hashCode`: h = 31 * h + c over the characters, in 32-bit arithmetic. */
  function StringHashCode(s: string): (h: int)
    ensures -0x8000_0000 <= h < 0x8000_0000
    decreases |s|
  {
    if s == [] then 0 else Wrap32(31 * StringHashCode(s[..|s| - 1]) + s[|s| - 1] as int)
  }

  /** The date strings of a list of date beans, in order. */
  function DatesOf(beans: seq<ScheduleDateBean>): (dates: seq<string>)
    reads set b | b in beans
    ensures |dates| == |beans|
    ensures forall i :: 0 <= i < |beans| ==> dates[i] == beans[i].scheduleDate
    decreases |beans|
  {
    if beans == [] then [] else DatesOf(beans[..|beans| - 1]) + [beans[|beans| - 1].scheduleDate]
  }

  /** The date strings of a list of beans are `dates` when the beans carry them one by one. */
  lemma DatesOfPointwise(beans: seq<ScheduleDateBean>, dates: seq<string>)
    requires |beans| == |dates|
    requires forall k :: 0 <= k < |beans| ==> beans[k].scheduleDate == dates[k]
    ensures DatesOf(beans) == dates
  {
  }

  /** No bean object occurs twice in the list. */
  ghost predicate Distinct(beans: seq<ScheduleDateBean>)
  {
    forall i, j :: 0 <= i < j < |beans| ==> beans[i] != beans[j]
  }

  /**
   * `List.remove(Object)` on a list of date beans: drops the first occurrence of `x`,
   * comparing beans by identity.
   */
  function RemoveFirst(list: seq<ScheduleDateBean>, x: ScheduleDateBean): (r: seq<ScheduleDateBean>)
    ensures x !in list ==> r == list
    decreases |list|
  {
    if list == [] then []
    else if list[0] == x then list[1..]
    else [list[0]] + RemoveFirst(list[1..], x)
  }

  /** Removing the first occurrence of a bean that sits at index k and not before it. */
  lemma {:induction false} RemoveFirstAt(list: seq<ScheduleDateBean>, x: ScheduleDateBean, k: int)
    requires 0 <= k < |list| && list[k] == x && x !in list[..k]
    ensures RemoveFirst(list, x) == list[..k] + list[k + 1..]
    decreases |list|
  {
    if k > 0 {
      assert list[0] in list[..k];
      assert list[1..][..k - 1] == list[1..k];
      RemoveFirstAt(list[1..], x, k - 1);
      assert [list[0]] + list[1..][..k - 1] == list[..k];
    }
  }

  /** The removals of the third loop of `setUpdatedDateBeans`, one after the other. */
  function RemoveAll(list: seq<ScheduleDateBean>, removeList: seq<ScheduleDateBean>): seq<ScheduleDateBean>
    decreases |removeList|
  {
    if removeList == [] then list
    else RemoveAll(RemoveFirst(list, removeList[0]), removeList[1..])
  }

  /** Removing, one by one, beans that follow a prefix and do not occur in it leaves the prefix. */
  lemma {:induction false} RemoveTail(prefix: seq<ScheduleDateBean>, tail: seq<ScheduleDateBean>)
    requires Distinct(tail)
    requires forall k :: 0 <= k < |tail| ==> tail[k] !in prefix
    ensures RemoveAll(prefix + tail, tail) == prefix
    decreases |tail|
  {
    if tail != [] {
      var list := prefix + tail;
      assert list[..|prefix|] == prefix && list[|prefix|] == tail[0];
      RemoveFirstAt(list, tail[0], |prefix|);
      assert list[|prefix| + 1..] == tail[1..];
      RemoveTail(prefix, tail[1..]);
    }
  }

  /** Removing the trailing beans of a list without repeats, one by one, leaves the leading ones. */
  lemma RemoveTrailingBeans(beans: seq<ScheduleDateBean>, kept: int)
    requires Distinct(beans) && 0 <= kept <= |beans|
    ensures RemoveAll(beans, beans[kept..]) == beans[..kept]
  {
    assert beans[..kept] + beans[kept..] == beans;
    RemoveTail(beans[..kept], beans[kept..]);
  }

  /**
   * The date beans left by `setUpdatedDateBeans`: `merged` is the list after the first two
   * loops and `result` what the removals of the third loop leave of it.
   */
  lemma MergedShape(oldBeans: seq<ScheduleDateBean>, merged: seq<ScheduleDateBean>,
                    removeList: seq<ScheduleDateBean>, dates: seq<string>, result: seq<ScheduleDateBean>)
    requires Distinct(oldBeans) && Distinct(merged)
    requires removeList == oldBeans[Min(|oldBeans|, |dates|)..]
    requires |merged| == |oldBeans| + |dates| - Min(|oldBeans|, |dates|)
    requires merged[..|oldBeans|] == oldBeans
    requires result == RemoveAll(merged, removeList)
    ensures result == merged[..|dates|]
    ensures result[..Min(|oldBeans|, |dates|)] == oldBeans[..Min(|oldBeans|, |dates|)]
    ensures Distinct(result)
  {
    if |dates| < |oldBeans| {
      assert merged == oldBeans;
      RemoveTrailingBeans(oldBeans, |dates|);
    } else {
      assert removeList == [] && merged[..|dates|] == merged;
    }
  }

  function Min(a: int, b: int): int
  {
    if a <= b then a else b
  }

  /**
   * The first loop of `setUpdatedDateBeans`: walks the beans, overwriting their dates
   * pairwise while dates remain and setting aside the beans left over after that.
   */
  method OverwriteDates(beans: seq<ScheduleDateBean>, dates: seq<string>)
    returns (removeList: seq<ScheduleDateBean>)
    requires Distinct(beans)
    modifies beans`scheduleDate
    ensures removeList == beans[Min(|beans|, |dates|)..]
    ensures forall k :: 0 <= k < Min(|beans|, |dates|) ==> beans[k].scheduleDate == dates[k]
    ensures forall k :: Min(|beans|, |dates|) <= k < |beans| ==> unchanged(beans[k])
  {
    var i, j := 0, 0;
    removeList := [];
    while i < |beans|
      invariant 0 <= i <= |beans| && j == Min(i, |dates|)
      invariant removeList == beans[j..i]
      invariant forall k :: 0 <= k < j ==> beans[k].scheduleDate == dates[k]
      invariant forall k :: j <= k < |beans| ==> unchanged(beans[k])
    {
      if j < |dates| {
        var oldDateBean := beans[i];
        var date := dates[j];
        oldDateBean.SetScheduleDate(date);
        i, j := i + 1, j + 1;
      } else {
        removeList := removeList + [beans[i]];
        i := i + 1;
      }
    }
  }

  class ScheduleBean {
    var scheduleId: string
    var userBeans: seq<PersonBean>
    var title: string
    var category: string
    var dateBeans: seq<ScheduleDateBean>
    var startTime: string
    var finishTime: string
    var detail: string
    var place: string

    /** A new schedule with the given id and, as yet, no participants and no dates. */
    constructor(scheduleId: string)
      ensures this.scheduleId == scheduleId && userBeans == [] && dateBeans == []
    {
      this.scheduleId := scheduleId;
      userBeans := [];
      dateBeans := [];
    }

    /**
     * `equals`: the same object, or another schedule with the same schedule id;
     * every other field is ignored.
     */
    predicate Equals(obj: object?)
      reads this, obj
      ensures obj == this ==> Equals(obj)
      ensures !(obj is ScheduleBean) ==> !Equals(obj)
      ensures obj is ScheduleBean ==> (Equals(obj) <==> scheduleId == (obj as ScheduleBean).scheduleId)
    {
      if this == obj then true
      else if !(obj is ScheduleBean) then false
      else scheduleId == (obj as ScheduleBean).scheduleId
    }

    /** `hashCode`: HashCodeBuilder(17, 37) over the schedule id alone, in 32-bit arithmetic. */
    function HashCode(): (h: int)
      reads this
      ensures -0x8000_0000 <= h < 0x8000_0000
    {
      Wrap32(17 * 37 + StringHashCode(scheduleId))
    }

    /** `getUserIds`: one id per participant, in the same order. */
    method GetUserIds() returns (userIds: seq<string>)
      ensures |userIds| == |userBeans|
      ensures forall i :: 0 <= i < |userBeans| ==> userIds[i] == userBeans[i].id
    {
      userIds := [];
      for i := 0 to |userBeans|
        invariant |userIds| == i
        invariant forall k :: 0 <= k < i ==> userIds[k] == userBeans[k].id
      {
        userIds := userIds + [userBeans[i].id];
      }
    }

    /** `getDates`: one date string per date bean, in the same order. */
    method GetDates() returns (dateList: seq<string>)
      ensures dateList == DatesOf(dateBeans)
    {
      dateList := [];
      for i := 0 to |dateBeans|
        invariant dateList == DatesOf(dateBeans[..i])
      {
        assert dateBeans[..i + 1][..i] == dateBeans[..i];
        dateList := dateList + [dateBeans[i].scheduleDate];
      }
      assert dateBeans[..|dateBeans|] == dateBeans;
    }

    /** `setNewDateBeans`: replaces the date beans by new ones, owned by this schedule, one per date. */
    method SetNewDateBeans(dates: seq<string>)
      modifies this`dateBeans
      ensures DatesOf(dateBeans) == dates
      ensures forall i :: 0 <= i < |dateBeans| ==> fresh(dateBeans[i]) && dateBeans[i].schedule == this
      ensures Distinct(dateBeans)
    {
      var dateBeanList: seq<ScheduleDateBean> := [];
      for k := 0 to |dates|
        invariant |dateBeanList| == k
        invariant forall i :: 0 <= i < k ==>
          fresh(dateBeanList[i]) && dateBeanList[i].schedule == this && dateBeanList[i].scheduleDate == dates[i]
        invariant Distinct(dateBeanList)
      {
        var bean := new ScheduleDateBean(this, dates[k]);
        dateBeanList := dateBeanList + [bean];
      }
      dateBeans := dateBeanList;
    }

    /**
     * The second loop of `setUpdatedDateBeans`: appends one new bean, owned by this
     * schedule, for each of `dates[from..]`.
     */
    method AppendNewBeans(dates: seq<string>, from: nat)
      requires Distinct(dateBeans) && from <= |dates|
      modifies this`dateBeans
      ensures |dateBeans| == |old(dateBeans)| + |dates| - from
      ensures dateBeans[..|old(dateBeans)|] == old(dateBeans)
      ensures forall k :: |old(dateBeans)| <= k < |dateBeans| ==>
        && fresh(dateBeans[k]) && dateBeans[k].schedule == this
        && dateBeans[k].scheduleDate == dates[from + k - |old(dateBeans)|]
      ensures Distinct(dateBeans)
    {
      var j := from;
      while j < |dates|
        invariant from <= j <= |dates|
        invariant |dateBeans| == |old(dateBeans)| + j - from
        invariant dateBeans[..|old(dateBeans)|] == old(dateBeans)
        invariant forall k :: |old(dateBeans)| <= k < |dateBeans| ==>
          && fresh(dateBeans[k]) && dateBeans[k].schedule == this
          && dateBeans[k].scheduleDate == dates[from + k - |old(dateBeans)|]
        invariant Distinct(dateBeans)
      {
        var bean := new ScheduleDateBean(this, dates[j]);
        dateBeans := dateBeans + [bean];
        j := j + 1;
      }
    }

    /**
     * The third loop of `setUpdatedDateBeans`: removes each bean set aside, in order,
     * each time its first occurrence.
     */
    method RemoveBeans(removeList: seq<ScheduleDateBean>)
      modifies this`dateBeans
      ensures dateBeans == RemoveAll(old(dateBeans), removeList)
    {
      for r := 0 to |removeList|
        invariant RemoveAll(dateBeans, removeList[r..]) == RemoveAll(old(dateBeans), removeList)
      {
        assert removeList[r..][1..] == removeList[r + 1..];
        var removing := removeList[r];
        dateBeans := RemoveFirst(dateBeans, removing);
      }
    }

    /**
     * `setUpdatedDateBeans`: merges `dates` into the existing date beans in place.
     * The first min(old length, |dates|) beans stay where they are with their dates
     * overwritten, new beans owned by this schedule are appended when `dates` is
     * longer, and only the trailing old beans are dropped, untouched, when it is shorter.
     */
    method SetUpdatedDateBeans(dates: seq<string>)
      requires Distinct(dateBeans)
      modifies this`dateBeans, dateBeans`scheduleDate
      ensures DatesOf(dateBeans) == dates
      ensures |dateBeans| == |dates|
      ensures var m := Min(|old(dateBeans)|, |dates|); dateBeans[..m] == old(dateBeans)[..m]
      ensures forall i :: Min(|old(dateBeans)|, |dates|) <= i < |dateBeans| ==>
        fresh(dateBeans[i]) && dateBeans[i].schedule == this
      ensures forall i :: |dates| <= i < |old(dateBeans)| ==> unchanged(old(dateBeans)[i])
      ensures Distinct(dateBeans)
    {
      var oldBeans := dateBeans;
      var removeList := OverwriteDates(oldBeans, dates);
      var kept := Min(|oldBeans|, |dates|);
      AppendNewBeans(dates, kept);
      ghost var merged := dateBeans;
      RemoveBeans(removeList);
      MergedShape(oldBeans, merged, removeList, dates, dateBeans);
      forall k | 0 <= k < |dateBeans|
        ensures dateBeans[k].scheduleDate == dates[k]
        ensures kept <= k ==> fresh(dateBeans[k]) && dateBeans[k].schedule == this
      {
        assert dateBeans[k] == merged[k];
      }
      DatesOfPointwise(dateBeans, dates);
    }

    method SetScheduleId(scheduleId: string)
      modifies this`scheduleId
      ensures this.scheduleId == scheduleId
    {
      this.scheduleId := scheduleId;
    }

    method SetUserBeans(userBeans: seq<PersonBean>)
      modifies this`userBeans
      ensures this.userBeans == userBeans
    {
      this.userBeans := userBeans;
    }

    method SetTitle(title: string)
      modifies this`title
      ensures this.title == title
    {
      this.title := title;
    }

    method SetCategory(category: string)
      modifies this`category
      ensures this.category == category
    {
      this.category := category;
    }

    method SetDateBeans(dateBeans: seq<ScheduleDateBean>)
      modifies this`dateBeans
      ensures this.dateBeans == dateBeans
    {
      this.dateBeans := dateBeans;
    }

    method SetStartTime(startTime: string)
      modifies this`startTime
      ensures this.startTime == startTime
    {
      this.startTime := startTime;
    }

    method SetFinishTime(finishTime: string)
      modifies this`finishTime
      ensures this.finishTime == finishTime
    {
      this.finishTime := finishTime;
    }

    method SetDetail(detail: string)
      modifies this`detail
      ensures this.detail == detail
    {
      this.detail := detail;
    }

    method SetPlace(place: string)
      modifies this`place
      ensures this.place == place
    {
      this.place := place;
    }
  }

  /** Two schedules are equal exactly when their schedule ids are. */
  lemma EqualsIffSameId(a: ScheduleBean, b: ScheduleBean)
    ensures a.Equals(b) <==> a.scheduleId == b.scheduleId
  {
  }

  /** Equality of schedules is symmetric and transitive. */
  lemma EqualsIsEquivalence(a: ScheduleBean, b: ScheduleBean, c: ScheduleBean)
    ensures a.Equals(b) ==> b.Equals(a)
    ensures a.Equals(b) && b.Equals(c) ==> a.Equals(c)
  {
  }

  /** Equal schedules have equal hash codes. */
  lemma EqualsImpliesEqualHashCode(a: ScheduleBean, b: ScheduleBean)
    requires a.Equals(b)
    ensures a.HashCode() == b.HashCode()
  {
  }
}
