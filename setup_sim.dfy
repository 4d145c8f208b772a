/** The simulated slits and filter box of the simulation setup script. The
    shutter of that script is part of module `Shutter`. */
module SimSetup {
  import opened Wrappers

  /** Two blocking slits, each a distance from the centre; 0 is closed. */
  class SynSlits {
    var lslit: real
    var rslit: real

    /** Each slit is put to half the requested gap. */
    constructor(gap: real)
      ensures lslit == gap / 2.0 && rslit == gap / 2.0
      ensures Gap() == gap
    {
      lslit := gap / 2.0;
      rslit := gap / 2.0;
    }

    /** `gap`: the total opening, the sum of the two slit distances. */
    function Gap(): (g: real)
      reads this
      ensures g == lslit + rslit
    {
      lslit + rslit
    }
  }

  /** A fresh pair of slits reports the gap it was built with, each slit
      holding half of it. */
  method SlitsReportGap(gap: real) returns (reported: real, left: real, right: real)
    ensures reported == gap
    ensures left == right && left + right == gap
  {
    var s := new SynSlits(gap);
    reported := s.Gap();
    left := s.lslit;
    right := s.rslit;
  }

  /** `filters[k]` past the end of the list. */
  datatype FilterError = IndexError(index: nat)

  /** Four filters of thickness 1, 2, 4 and 8. */
  class SynFilters {
    var filt0: real
    var filt1: real
    var filt2: real
    var filt3: real

    /** The first four entries become the four filters. */
    constructor(filters: seq<real>)
      requires |filters| >= 4
      ensures filt0 == filters[0] && filt1 == filters[1]
      ensures filt2 == filters[2] && filt3 == filters[3]
    {
      filt0 := filters[0];
      filt1 := filters[1];
      filt2 := filters[2];
      filt3 := filters[3];
    }

    /** `put(filters)`: `filt0` .. `filt3` take `filters[0]` .. `filters[3]`
        in turn; a list shorter than four raises `IndexError` at its length,
        after the filters before it were written. Nothing else changes. */
    method Put(filters: seq<real>) returns (r: Result<(), FilterError>)
      modifies this
      ensures r == if |filters| >= 4 then Success(()) else Failure(IndexError(|filters|))
      ensures filt0 == if |filters| > 0 then filters[0] else old(filt0)
      ensures filt1 == if |filters| > 1 then filters[1] else old(filt1)
      ensures filt2 == if |filters| > 2 then filters[2] else old(filt2)
      ensures filt3 == if |filters| > 3 then filters[3] else old(filt3)
    {
      if |filters| < 1 {
        return Failure(IndexError(0));
      }
      filt0 := filters[0];
      if |filters| < 2 {
        return Failure(IndexError(1));
      }
      filt1 := filters[1];
      if |filters| < 3 {
        return Failure(IndexError(2));
      }
      filt2 := filters[2];
      if |filters| < 4 {
        return Failure(IndexError(3));
      }
      filt3 := filters[3];
      return Success(());
    }
  }

  /** Putting a full list replaces all four filters; putting a short list
      writes its prefix, raises at its length and keeps the rest. */
  method FiltersPut(initial: seq<real>, a: real, b: real)
    returns (full: Result<(), FilterError>, short: Result<(), FilterError>,
             after: (real, real, real, real))
    requires |initial| >= 4
    ensures full == Success(())
    ensures short == Failure(IndexError(2))
    ensures after == (b, a, a, b)
  {
    var f := new SynFilters(initial);
    full := f.Put([a, b, a, b]);
    short := f.Put([b, a]);
    after := (f.filt0, f.filt1, f.filt2, f.filt3);
  }
}
