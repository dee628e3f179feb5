/** The client-side checks a picked file passes before anything is uploaded,
    and the sub-ranges of the progress bar that each sequential upload moves
    through. */
module Uploads {
  import opened Base
  import opened Text
  import opened Gateway

  const MiB: nat := 1024 * 1024

  /** Ceiling for avatars and server icons (10 MiB). */
  const IconLimit: nat := 10 * MiB
  /** Ceiling for profile and server backgrounds (100 MiB). */
  const BackgroundLimit: nat := 100 * MiB
  /** Ceiling for channel attachments (600 MiB). */
  const AttachmentLimit: nat := 600 * MiB

  /** The outcome of a check: accepted, or which toast is shown. */
  datatype Verdict = Accepted | TooLarge | WrongType

  /** `type.startsWith('image/')`; no file is both an image and a video. */
  predicate IsImage(f: File)
    ensures IsImage(f) <==> |f.mime| >= 6 && f.mime[..6] == "image/"
    ensures IsImage(f) ==> !IsVideo(f)
  {
    "image/" <= f.mime
  }

  /** `type.startsWith('video/')`. */
  predicate IsVideo(f: File)
    ensures IsVideo(f) <==> |f.mime| >= 6 && f.mime[..6] == "video/"
  {
    "video/" <= f.mime
  }

  /** A storage path `folder + key + '_' + name`, as every image upload builds
      it: the folder, the key, an underscore and the file name, in that order. */
  function KeyedPath(folder: string, key: string, name: string): (p: string)
    ensures |p| == |folder| + |key| + 1 + |name|
    ensures folder <= p
    ensures p[|folder|..|folder| + |key|] == key && p[|folder| + |key|] == '_'
    ensures p[|folder| + |key| + 1..] == name
  {
    var p := folder + key + "_" + name;
    assert p[|folder|..|folder| + |key|] == key;
    assert p[|folder| + |key| + 1..] == name;
    p
  }

  /** A size check against `maxSize` followed by a MIME-prefix check: images
      always pass, videos only when `allowVideo`. The size check comes first,
      so an oversized file of the wrong type is reported as too large. */
  function Check(f: File, maxSize: nat, allowVideo: bool): (v: Verdict)
    ensures v == TooLarge <==> f.size > maxSize
    ensures v == Accepted <==> f.size <= maxSize && (IsImage(f) || (allowVideo && IsVideo(f)))
    ensures v == WrongType <==> f.size <= maxSize && !IsImage(f) && !(allowVideo && IsVideo(f))
  {
    if f.size > maxSize then TooLarge
    else if !IsImage(f) && !(allowVideo && IsVideo(f)) then WrongType
    else Accepted
  }

  /** Avatars and server icons: at most 10 MiB and an `image/` type. */
  function IconCheck(f: File): (v: Verdict)
    ensures v == Accepted <==> f.size <= 10 * 1024 * 1024 && "image/" <= f.mime
    ensures v == TooLarge <==> f.size > 10 * 1024 * 1024
  {
    Check(f, IconLimit, false)
  }

  /** Backgrounds: at most 100 MiB and an `image/` or `video/` type. */
  function BackgroundCheck(f: File): (v: Verdict)
    ensures v == Accepted <==> f.size <= 100 * 1024 * 1024 && ("image/" <= f.mime || "video/" <= f.mime)
    ensures v == TooLarge <==> f.size > 100 * 1024 * 1024
  {
    Check(f, BackgroundLimit, true)
  }

  /** Channel attachments: only the 600 MiB ceiling, no type restriction. */
  function AttachmentCheck(f: File): (v: Verdict)
    ensures v != WrongType
    ensures v == Accepted <==> f.size <= 600 * 1024 * 1024
  {
    if f.size > AttachmentLimit then TooLarge else Accepted
  }

  /** The ceilings are inclusive: a file of exactly the limit passes, one byte more does not. */
  lemma CeilingsAreInclusive(name: string)
    ensures IconCheck(File(name, IconLimit, "image/png")) == Accepted
    ensures IconCheck(File(name, IconLimit + 1, "image/png")) == TooLarge
    ensures BackgroundCheck(File(name, BackgroundLimit, "video/mp4")) == Accepted
    ensures BackgroundCheck(File(name, BackgroundLimit + 1, "video/mp4")) == TooLarge
    ensures AttachmentCheck(File(name, AttachmentLimit, "application/zip")) == Accepted
    ensures AttachmentCheck(File(name, AttachmentLimit + 1, "application/zip")) == TooLarge
  {
  }

  /** Progress during the first of two uploads (avatar or server icon): `20 + percent * 0.3`. */
  function FirstUploadProgress(percent: real): (v: real)
    ensures 0.0 <= percent <= 100.0 ==> 20.0 <= v <= 50.0
    ensures percent == 0.0 ==> v == 20.0
    ensures percent == 100.0 ==> v == 50.0
  {
    20.0 + percent * 0.3
  }

  /** Progress during the second upload (background): `50 + percent * 0.4`. */
  function SecondUploadProgress(percent: real): (v: real)
    ensures 0.0 <= percent <= 100.0 ==> 50.0 <= v <= 90.0
    ensures percent == 0.0 ==> v == 50.0
    ensures percent == 100.0 ==> v == 90.0
  {
    50.0 + percent * 0.4
  }

  /** Progress during the icon upload of server creation: `25 + percent * 0.5`. */
  function CreateIconProgress(percent: real): (v: real)
    ensures 0.0 <= percent <= 100.0 ==> 25.0 <= v <= 75.0
    ensures percent == 0.0 ==> v == 25.0
    ensures percent == 100.0 ==> v == 75.0
  {
    25.0 + percent * 0.5
  }

  /** Every reported percentage lies in [0, 100]. */
  predicate Percentages(ps: seq<real>) {
    forall k :: 0 <= k < |ps| ==> 0.0 <= ps[k] <= 100.0
  }

  /** The bar values shown while the first upload reports `ps`. */
  function FirstPhase(ps: seq<real>): (r: seq<real>)
    ensures |r| == |ps|
    ensures Percentages(ps) ==> forall k :: 0 <= k < |r| ==> 20.0 <= r[k] <= 50.0
  {
    seq(|ps|, k requires 0 <= k < |ps| => FirstUploadProgress(ps[k]))
  }

  /** The bar values shown while the second upload reports `ps`. */
  function SecondPhase(ps: seq<real>): (r: seq<real>)
    ensures |r| == |ps|
    ensures Percentages(ps) ==> forall k :: 0 <= k < |r| ==> 50.0 <= r[k] <= 90.0
  {
    seq(|ps|, k requires 0 <= k < |ps| => SecondUploadProgress(ps[k]))
  }

  /** The bar values shown while the server-creation icon upload reports `ps`. */
  function CreateIconPhase(ps: seq<real>): (r: seq<real>)
    ensures |r| == |ps|
    ensures Percentages(ps) ==> forall k :: 0 <= k < |r| ==> 25.0 <= r[k] <= 75.0
  {
    seq(|ps|, k requires 0 <= k < |ps| => CreateIconProgress(ps[k]))
  }

  /** A bar value is a valid percentage. */
  predicate InBar(vs: seq<real>) {
    Within(vs, 0.0, 100.0)
  }

  /** Non-decreasing sequence of bar values. */
  predicate Rising(vs: seq<real>) {
    forall i, j :: 0 <= i < j < |vs| ==> vs[i] <= vs[j]
  }

  /** When the gateway reports non-decreasing percentages, each phase's bar values rise too. */
  lemma PhasesRise(ps: seq<real>)
    requires Rising(ps)
    ensures Rising(FirstPhase(ps)) && Rising(SecondPhase(ps)) && Rising(CreateIconPhase(ps))
  {
  }

  /** Two rising runs whose values are separated by `m` join into one rising run. */
  lemma RisingJoin(a: seq<real>, b: seq<real>, m: real)
    requires Rising(a) && Rising(b)
    requires forall i :: 0 <= i < |a| ==> a[i] <= m
    requires forall j :: 0 <= j < |b| ==> m <= b[j]
    ensures Rising(a + b)
  {
    forall i, j | 0 <= i < j < |a + b| ensures (a + b)[i] <= (a + b)[j] {
      if j < |a| {
        assert (a + b)[i] == a[i] && (a + b)[j] == a[j];
      } else if i >= |a| {
        assert (a + b)[i] == b[i - |a|] && (a + b)[j] == b[j - |a|];
      } else {
        assert (a + b)[i] == a[i] && (a + b)[j] == b[j - |a|];
      }
    }
  }

  /** Every value of `s` lies in [lo, hi]. */
  predicate Within(s: seq<real>, lo: real, hi: real) {
    forall k :: 0 <= k < |s| ==> lo <= s[k] <= hi
  }

  lemma WithinJoin(a: seq<real>, b: seq<real>, lo: real, hi: real)
    ensures Within(a, lo, hi) && Within(b, lo, hi) ==> Within(a + b, lo, hi)
  {
  }

  lemma WithinWiden(s: seq<real>, lo: real, hi: real, lo': real, hi': real)
    requires lo' <= lo && hi <= hi'
    ensures Within(s, lo, hi) ==> Within(s, lo', hi')
  {
  }

  /** The gateway calls a save makes before its record write: one per upload. */
  function UploadCount(first: bool, second: bool): (n: nat)
    ensures n <= 2
    ensures n == 0 <==> !first && !second
  {
    (if first then 1 else 0) + (if second then 1 else 0)
  }

  /** The bar values of the first upload: the jump to 20, then its progress. */
  function FirstSegment(first: bool, ps1: seq<real>): (r: seq<real>)
    ensures Percentages(ps1) ==> Within(r, 20.0, 50.0)
    ensures first ==> r == [20.0] + FirstPhase(ps1)
  {
    if first then [20.0] + FirstPhase(ps1) else []
  }

  /** The bar values of the second upload: the jump to 50, then its progress. */
  function SecondSegment(second: bool, ps2: seq<real>): (r: seq<real>)
    ensures Percentages(ps2) ==> Within(r, 50.0, 90.0)
  {
    if second then [50.0] + SecondPhase(ps2) else []
  }

  /** The bar values before the second upload: 0 when saving starts, then,
      with a first file, the jump to 20 and that upload's progress. */
  function Opening(first: bool, ps1: seq<real>): (r: seq<real>)
    ensures r != [] && r[0] == 0.0
    ensures first ==> |r| == 2 + |ps1| && r[1] == 20.0 && r[2..] == FirstPhase(ps1)
    ensures Percentages(ps1) ==> Within(r, 0.0, 50.0)
  {
    [0.0] + FirstSegment(first, ps1)
  }

  /** The bar values of the second upload, which only starts once the first
      (if any) has succeeded. */
  function Middle(first: bool, second: bool, okCalls: nat, ps2: seq<real>): (r: seq<real>)
    ensures first && okCalls == 0 ==> r == []
    ensures Percentages(ps2) ==> Within(r, 50.0, 90.0)
  {
    if !first || okCalls >= 1 then SecondSegment(second, ps2) else []
  }

  /** 90 once every upload is done, then 100 once the record is written. */
  function Closing(first: bool, second: bool, okCalls: nat): (r: seq<real>)
    ensures Within(r, 90.0, 100.0)
    ensures 100.0 in r <==> okCalls > UploadCount(first, second)
    ensures okCalls > UploadCount(first, second) ==> r == [90.0, 100.0]
    ensures okCalls == UploadCount(first, second) ==> r == [90.0]
    ensures okCalls < UploadCount(first, second) ==> r == []
  {
    (if okCalls >= UploadCount(first, second) then [90.0] else [])
      + (if okCalls > UploadCount(first, second) then [100.0] else [])
  }

  /** The bar values of a save with up to two uploads (avatar or icon first,
      background second) from its start up to, not including, the final reset,
      when `okCalls` gateway calls succeed before one throws: 0 when saving
      starts; 20 and the first upload's values; 50 and the second upload's
      values; 90 once the uploads are done; and 100 once the record is written.
      A failed upload ends the run early. */
  function SaveRun(first: bool, second: bool, okCalls: nat, ps1: seq<real>, ps2: seq<real>): (r: seq<real>)
    ensures r != [] && r[0] == 0.0
    ensures okCalls > UploadCount(first, second) ==> r[|r| - 1] == 100.0
  {
    Opening(first, ps1) + Middle(first, second, okCalls, ps2) + Closing(first, second, okCalls)
  }

  /** A run starts at 0; with a first file it jumps to 20 and follows that
      upload's progress; when the record is written it ends with 90 then 100. */
  lemma RunShape(first: bool, second: bool, okCalls: nat, ps1: seq<real>, ps2: seq<real>)
    ensures var t := SaveRun(first, second, okCalls, ps1, ps2);
      && t != [] && t[0] == 0.0
      && (first ==> |t| >= 2 + |ps1| && t[1] == 20.0 && t[2..2 + |ps1|] == FirstPhase(ps1))
      && (okCalls > UploadCount(first, second) ==> |t| >= 3 && t[|t| - 2] == 90.0 && t[|t| - 1] == 100.0)
  {
    var o := Opening(first, ps1);
    assert first ==> (o + Middle(first, second, okCalls, ps2) + Closing(first, second, okCalls))[2..2 + |ps1|] == o[2..];
  }

  /** While the gateway reports percentages in [0, 100], the bar never leaves
      [0, 100], and it reaches 100 exactly when the record is written. */
  lemma RunInBar(first: bool, second: bool, okCalls: nat, ps1: seq<real>, ps2: seq<real>)
    requires Percentages(ps1) && Percentages(ps2)
    ensures InBar(SaveRun(first, second, okCalls, ps1, ps2))
    ensures 100.0 in SaveRun(first, second, okCalls, ps1, ps2) <==> okCalls > UploadCount(first, second)
  {
    var o, m, c := Opening(first, ps1), Middle(first, second, okCalls, ps2), Closing(first, second, okCalls);
    WithinWiden(o, 0.0, 50.0, 0.0, 90.0);
    WithinWiden(m, 50.0, 90.0, 0.0, 90.0);
    WithinJoin(o, m, 0.0, 90.0);
    WithinWiden(o + m, 0.0, 90.0, 0.0, 100.0);
    WithinWiden(c, 90.0, 100.0, 0.0, 100.0);
    WithinJoin(o + m, c, 0.0, 100.0);
    assert 100.0 !in o + m;
  }

  /** Every value the bar takes during such a save: the run, then the reset
      to 0 that ends every save, however it ends. */
  function TwoUploadTrace(first: bool, second: bool, okCalls: nat, ps1: seq<real>, ps2: seq<real>): (t: seq<real>)
    ensures |t| >= 2 && t[0] == 0.0 && t[|t| - 1] == 0.0
    ensures t[..|t| - 1] == SaveRun(first, second, okCalls, ps1, ps2)
  {
    var run := SaveRun(first, second, okCalls, ps1, ps2);
    RunShape(first, second, okCalls, ps1, ps2);
    assert (run + [0.0])[..|run|] == run;
    run + [0.0]
  }

  /** The bar values of one upload segment rise with the reported percentages. */
  lemma SegmentsRise(first: bool, second: bool, ps1: seq<real>, ps2: seq<real>)
    requires Percentages(ps1) && Percentages(ps2) && Rising(ps1) && Rising(ps2)
    ensures Rising([0.0] + FirstSegment(first, ps1))
    ensures Rising(SecondSegment(second, ps2))
  {
    PhasesRise(ps1);
    PhasesRise(ps2);
    RisingJoin([20.0], FirstPhase(ps1), 20.0);
    RisingJoin([0.0], FirstSegment(first, ps1), 20.0);
    RisingJoin([50.0], SecondPhase(ps2), 50.0);
  }

  /** While the gateway reports rising percentages, the bar only moves forward
      until the final reset. */
  lemma RunRises(first: bool, second: bool, okCalls: nat, ps1: seq<real>, ps2: seq<real>)
    requires Percentages(ps1) && Percentages(ps2) && Rising(ps1) && Rising(ps2)
    ensures Rising(SaveRun(first, second, okCalls, ps1, ps2))
  {
    var o, m, c := Opening(first, ps1), Middle(first, second, okCalls, ps2), Closing(first, second, okCalls);
    SegmentsRise(first, second, ps1, ps2);
    RisingJoin(o, m, 50.0);
    WithinWiden(o, 0.0, 50.0, 0.0, 90.0);
    WithinWiden(m, 50.0, 90.0, 0.0, 90.0);
    WithinJoin(o, m, 0.0, 90.0);
    RisingJoin(o + m, c, 90.0);
  }

  /** The URL written for an image slot: the upload's URL when a new file was
      chosen, otherwise the kept one. */
  function FinalUrl(kept: Option<string>, chosen: Option<File>, uploaded: string): (u: Option<string>)
    ensures chosen.Some? ==> u == Some(uploaded)
    ensures chosen.None? ==> u == kept
  {
    if chosen.Some? then Some(uploaded) else kept
  }

  /** The image URL a save writes as evidently intended: a new file's URL; no
      image at all when the preview was removed; the stored URL otherwise. */
  function IntendedUrl(stored: Option<string>, chosen: Option<File>, preview: Option<string>, uploaded: string): (u: Option<string>)
    ensures chosen.Some? ==> u == Some(uploaded)
    ensures chosen.None? && preview.None? ==> u.None?
    ensures chosen.None? && preview.Some? ==> u == stored
  {
    if chosen.Some? then Some(uploaded) else if preview.None? then None else stored
  }

  /** With the intended URL, the image shown the next time the dialog opens
      (`url || null`) is present exactly when the dialog showed one at save
      time: a removal sticks, and a kept image stays. The preview is the stored
      image as the dialog loaded it, nothing after the remove button, or a newly
      picked one, as the effect and the handlers leave it. */
  lemma IntendedUrlMatchesPreview(stored: Option<string>, chosen: Option<File>, preview: Option<string>, uploaded: string)
    requires chosen.Some? ==> preview.Some?
    requires chosen.None? ==> preview == OrNull(stored) || preview.None?
    requires uploaded != []
    ensures OrNull(IntendedUrl(stored, chosen, preview, uploaded)).Some? <==> preview.Some?
  {
  }

  /** The paths of the chosen uploads, in upload order. */
  function Chosen(first: Option<string>, second: Option<string>): (r: seq<string>)
    ensures |r| == UploadCount(first.Some?, second.Some?)
    ensures first.Some? ==> r[0] == first.value
    ensures second.Some? ==> r[|r| - 1] == second.value
  {
    (if first.Some? then [first.value] else []) + (if second.Some? then [second.value] else [])
  }

  /** The upload steps of a save: the first chosen file, then the second, each
      a gateway call that may throw, and a throw stops the save. `okCalls` calls
      succeed before one throws. The blobs stored are the chosen paths up to
      the first failure; `done` tells whether every upload succeeded; `run` is
      every value the bar takes meanwhile. */
  method UploadInOrder(store: Store, first: Option<string>, second: Option<string>, okCalls: nat,
                       ps1: seq<real>, ps2: seq<real>) returns (done: bool, run: seq<real>)
    modifies store
    ensures done <==> okCalls >= UploadCount(first.Some?, second.Some?)
    ensures store.db == old(store.db).(blobs := old(store.db.blobs) + FirstN(Chosen(first, second), okCalls))
    ensures run == Opening(first.Some?, ps1) + Middle(first.Some?, second.Some?, okCalls, ps2)
  {
    run := [0.0];
    var calls: nat := 0;
    done := true;
    if first.Some? {
      run := run + FirstSegment(true, ps1);
      if okCalls == 0 {
        done := false;
      } else {
        store.Upload(first.value);
        calls := 1;
      }
    }
    assert run == Opening(first.Some?, ps1);
    if done && second.Some? {
      run := run + SecondSegment(true, ps2);
      if okCalls == calls {
        done := false;
      } else {
        store.Upload(second.value);
        calls := calls + 1;
      }
    }
    assert store.db.blobs == old(store.db.blobs) + FirstN(Chosen(first, second), okCalls);
  }
}
