/**
 File filters (crates/cursdel-core/src/filter.rs). A glob is an uninterpreted predicate on file names; times are
 nanoseconds on one clock, which may lie after the reference time.
 */
module Filter {
  import opened Wrappers

  datatype EntryTimes = EntryTimes(modified: Option<int>, created: Option<int>, accessed: Option<int>)

  datatype AgeBasis = Modified | Created | Accessed

  datatype RetainReason =
    | TooYoung | ExcludedByPattern | NotIncludedByPattern | TooSmall | TooLarge | TimestampUnavailable

  datatype FilterDecision = Delete | Retain(reason: RetainReason)

  /** The attributes of a file that filters look at. */
  datatype FileEntry = FileEntry(name: string, size: nat, times: EntryTimes) {
    function TimeBy(basis: AgeBasis): Option<int> {
      match basis
      case Modified => times.modified
      case Created => times.created
      case Accessed => times.accessed
    }
  }

  datatype FilterSet = FilterSet(
    includes: Option<string -> bool>,
    excludes: Option<string -> bool>,
    minSize: Option<nat>,
    maxSize: Option<nat>,
    age: Option<nat>,
    ageBasis: AgeBasis,
    referenceTime: int)
  {
    predicate IsNoop() {
      includes.None? && excludes.None? && minSize.None? && maxSize.None? && age.None?
    }

    /** A time in the future counts as no time ago. */
    function Elapsed(ts: int): nat {
      if ts <= referenceTime then referenceTime - ts else 0
    }

    function EvaluateAge(entry: FileEntry): FilterDecision {
      if age.None? then
        Delete
      else
        match entry.TimeBy(ageBasis)
        case None => Retain(TimestampUnavailable)
        case Some(ts) => if Elapsed(ts) < age.value then Retain(TooYoung) else Delete
    }

    function EvaluateFile(entry: FileEntry): FilterDecision {
      if excludes.Some? && excludes.value(entry.name) then
        Retain(ExcludedByPattern)
      else if includes.Some? && !includes.value(entry.name) then
        Retain(NotIncludedByPattern)
      else if minSize.Some? && entry.size < minSize.value then
        Retain(TooSmall)
      else if maxSize.Some? && entry.size > maxSize.value then
        Retain(TooLarge)
      else
        EvaluateAge(entry)
    }

    /** The entry fails one particular test. */
    predicate Objects(reason: RetainReason, entry: FileEntry) {
      match reason
      case ExcludedByPattern => excludes.Some? && excludes.value(entry.name)
      case NotIncludedByPattern => includes.Some? && !includes.value(entry.name)
      case TooSmall => minSize.Some? && entry.size < minSize.value
      case TooLarge => maxSize.Some? && entry.size > maxSize.value
      case TimestampUnavailable => age.Some? && entry.TimeBy(ageBasis).None?
      case TooYoung => age.Some? && entry.TimeBy(ageBasis).Some? && Elapsed(entry.TimeBy(ageBasis).value) < age.value
    }

    /** A file goes exactly when no test objects; a test that is named as the reason does object. */
    lemma DeletedIffNoObjection(entry: FileEntry)
      ensures EvaluateFile(entry) == Delete <==> forall reason :: !Objects(reason, entry)
      ensures EvaluateFile(entry).Retain? ==> Objects(EvaluateFile(entry).reason, entry)
    {
      if EvaluateFile(entry) == Delete {
        forall reason ensures !Objects(reason, entry) {
          match reason
          case _ =>
        }
      } else {
        assert Objects(EvaluateFile(entry).reason, entry);
      }
    }

    /**
     The same in terms of the file: its name, its size and, by the time the filters look at, its age. A file without
     that time stays, and one from the future is no age at all.
     */
    lemma DeletedIff(entry: FileEntry)
      ensures EvaluateFile(entry) == Delete
              <==>
              && (excludes.Some? ==> !excludes.value(entry.name))
              && (includes.Some? ==> includes.value(entry.name))
              && (minSize.Some? ==> minSize.value <= entry.size)
              && (maxSize.Some? ==> entry.size <= maxSize.value)
              && (age.Some? ==>
                    var times := entry.times;
                    && (ageBasis == Modified ==> IsOld(times.modified))
                    && (ageBasis == Created ==> IsOld(times.created))
                    && (ageBasis == Accessed ==> IsOld(times.accessed)))
    {
    }

    /** The time is known and at least the age before the reference time, or the age is none. */
    predicate IsOld(time: Option<int>)
      requires age.Some?
    {
      time.Some? && (age.value == 0 || time.value + age.value <= referenceTime)
    }

    /** The reason given is the first test that objects, in the order in which they are made. */
    lemma ReasonIsFirst(entry: FileEntry)
      ensures EvaluateFile(entry).Retain? ==>
                var reason := EvaluateFile(entry).reason;
                && (reason != ExcludedByPattern ==> !Objects(ExcludedByPattern, entry))
                && (reason.TooSmall? || reason.TooLarge? || reason.TooYoung? || reason.TimestampUnavailable? ==>
                      !Objects(NotIncludedByPattern, entry))
                && (reason.TooLarge? || reason.TooYoung? || reason.TimestampUnavailable? ==> !Objects(TooSmall, entry))
                && (reason.TooYoung? || reason.TimestampUnavailable? ==> !Objects(TooLarge, entry))
    {
    }

    /** Without filters every file goes, so a run that deletes its target never leaves a file in it on purpose. */
    lemma NoopDeletesAll(entry: FileEntry)
      requires IsNoop()
      ensures EvaluateFile(entry) == Delete
    {
    }
  }
}
