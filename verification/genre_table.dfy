/**
 * The static genre table of the recommendation controller: for each genre name
 * the range `[min, max]` its weight is drawn from. Rows are kept in the order the
 * table declares them, which is the order `Object.keys` reports them in.
 */
module GenreTable {
  import opened Wrappers

  /** The inclusive weight range of one genre. */
  datatype Range = Range(min: int, max: int)

  /** One row of the table. */
  datatype Entry = Entry(name: string, range: Range)

  /** Every declared row has a 21-value range starting between 5 and 30. */
  predicate WellFormed(e: Entry)
  {
    e.range.max == e.range.min + 20 && 5 <= e.range.min <= 30
  }

  /** A table all of whose rows are well formed. */
  predicate ValidTable(t: seq<Entry>)
  {
    forall e | e in t :: WellFormed(e)
  }

  /**
   * The whole table. It is written as eight blocks of at most sixteen rows so
   * that the verifier checks the rows block by block (see TableWellFormed).
   */
  const Table: seq<Entry> := Block0 + Block1 + Block2 + Block3 + Block4 + Block5 + Block6 + Block7

  const Block0: seq<Entry> := [
    Entry("acoustic", Range(5, 25)),
    Entry("afrobeat", Range(10, 30)),
    Entry("alt-rock", Range(15, 35)),
    Entry("alternative", Range(10, 30)),
    Entry("ambient", Range(5, 25)),
    Entry("anime", Range(10, 30)),
    Entry("black-metal", Range(15, 35)),
    Entry("bluegrass", Range(10, 30)),
    Entry("blues", Range(10, 30)),
    Entry("bossanova", Range(5, 25)),
    Entry("brazil", Range(10, 30)),
    Entry("breakbeat", Range(15, 35)),
    Entry("british", Range(10, 30)),
    Entry("cantopop", Range(10, 30)),
    Entry("chicago-house", Range(15, 35)),
    Entry("children", Range(5, 25))
  ]

  const Block1: seq<Entry> := [
    Entry("chill", Range(10, 30)),
    Entry("classical", Range(10, 30)),
    Entry("club", Range(15, 35)),
    Entry("comedy", Range(5, 25)),
    Entry("country", Range(10, 30)),
    Entry("dance", Range(15, 35)),
    Entry("dancehall", Range(10, 30)),
    Entry("death-metal", Range(15, 35)),
    Entry("deep-house", Range(10, 30)),
    Entry("detroit-techno", Range(15, 35)),
    Entry("disco", Range(10, 30)),
    Entry("disney", Range(5, 25)),
    Entry("drum-and-bass", Range(15, 35)),
    Entry("dub", Range(10, 30)),
    Entry("dubstep", Range(15, 35)),
    Entry("edm", Range(15, 35))
  ]

  const Block2: seq<Entry> := [
    Entry("electro", Range(10, 30)),
    Entry("electronic", Range(10, 30)),
    Entry("emo", Range(10, 30)),
    Entry("folk", Range(10, 30)),
    Entry("forro", Range(10, 30)),
    Entry("french", Range(10, 30)),
    Entry("funk", Range(10, 30)),
    Entry("garage", Range(10, 30)),
    Entry("german", Range(10, 30)),
    Entry("gospel", Range(10, 30)),
    Entry("goth", Range(10, 30)),
    Entry("grindcore", Range(15, 35)),
    Entry("groove", Range(10, 30)),
    Entry("grunge", Range(15, 35)),
    Entry("guitar", Range(10, 30)),
    Entry("happy", Range(5, 25))
  ]

  const Block3: seq<Entry> := [
    Entry("hard-rock", Range(15, 35)),
    Entry("hardcore", Range(15, 35)),
    Entry("hardstyle", Range(15, 35)),
    Entry("heavy-metal", Range(15, 35)),
    Entry("hip-hop", Range(15, 35)),
    Entry("holidays", Range(5, 25)),
    Entry("honky-tonk", Range(10, 30)),
    Entry("house", Range(15, 35)),
    Entry("idm", Range(10, 30)),
    Entry("indian", Range(10, 30)),
    Entry("indie", Range(10, 30)),
    Entry("indie-pop", Range(10, 30)),
    Entry("industrial", Range(15, 35)),
    Entry("iranian", Range(10, 30)),
    Entry("j-dance", Range(10, 30)),
    Entry("j-idol", Range(10, 30))
  ]

  const Block4: seq<Entry> := [
    Entry("j-pop", Range(10, 30)),
    Entry("j-rock", Range(15, 35)),
    Entry("jazz", Range(10, 30)),
    Entry("k-pop", Range(15, 35)),
    Entry("kids", Range(5, 25)),
    Entry("latin", Range(10, 30)),
    Entry("latino", Range(10, 30)),
    Entry("malay", Range(10, 30)),
    Entry("mandopop", Range(10, 30)),
    Entry("metal", Range(15, 35)),
    Entry("metal-misc", Range(15, 35)),
    Entry("metalcore", Range(15, 35)),
    Entry("minimal-techno", Range(10, 30)),
    Entry("movies", Range(5, 25)),
    Entry("mpb", Range(10, 30)),
    Entry("new-age", Range(5, 25))
  ]

  const Block5: seq<Entry> := [
    Entry("new-release", Range(10, 30)),
    Entry("opera", Range(10, 30)),
    Entry("pagode", Range(10, 30)),
    Entry("party", Range(15, 35)),
    Entry("philippines-opm", Range(10, 30)),
    Entry("piano", Range(5, 25)),
    Entry("pop", Range(15, 35)),
    Entry("pop-film", Range(5, 25)),
    Entry("post-dubstep", Range(10, 30)),
    Entry("power-pop", Range(10, 30)),
    Entry("progressive-house", Range(15, 35)),
    Entry("psych-rock", Range(10, 30)),
    Entry("punk", Range(15, 35)),
    Entry("punk-rock", Range(15, 35)),
    Entry("r-n-b", Range(10, 30)),
    Entry("rainy-day", Range(5, 25))
  ]

  const Block6: seq<Entry> := [
    Entry("reggae", Range(10, 30)),
    Entry("reggaeton", Range(15, 35)),
    Entry("road-trip", Range(10, 30)),
    Entry("rock", Range(15, 35)),
    Entry("rock-n-roll", Range(10, 30)),
    Entry("rockabilly", Range(10, 30)),
    Entry("romance", Range(5, 25)),
    Entry("sad", Range(5, 25)),
    Entry("salsa", Range(10, 30)),
    Entry("samba", Range(10, 30)),
    Entry("sertanejo", Range(30, 50)),
    Entry("show-tunes", Range(5, 25)),
    Entry("singer-songwriter", Range(10, 30)),
    Entry("ska", Range(10, 30)),
    Entry("sleep", Range(5, 25)),
    Entry("songwriter", Range(10, 30))
  ]

  const Block7: seq<Entry> := [
    Entry("soul", Range(10, 30)),
    Entry("soundtracks", Range(5, 25)),
    Entry("spanish", Range(10, 30)),
    Entry("study", Range(5, 25)),
    Entry("summer", Range(10, 30)),
    Entry("swedish", Range(10, 30)),
    Entry("synth-pop", Range(10, 30)),
    Entry("tango", Range(10, 30)),
    Entry("techno", Range(15, 35)),
    Entry("trance", Range(15, 35)),
    Entry("trip-hop", Range(10, 30)),
    Entry("turkish", Range(10, 30)),
    Entry("work-out", Range(15, 35)),
    Entry("world-music", Range(10, 30))
  ]

  lemma Block0WellFormed() ensures forall e | e in Block0 :: WellFormed(e) {}
  lemma Block1WellFormed() ensures forall e | e in Block1 :: WellFormed(e) {}
  lemma Block2WellFormed() ensures forall e | e in Block2 :: WellFormed(e) {}
  lemma Block3WellFormed() ensures forall e | e in Block3 :: WellFormed(e) {}
  lemma Block4WellFormed() ensures forall e | e in Block4 :: WellFormed(e) {}
  lemma Block5WellFormed() ensures forall e | e in Block5 :: WellFormed(e) {}
  lemma Block6WellFormed() ensures forall e | e in Block6 :: WellFormed(e) {}
  lemma Block7WellFormed() ensures forall e | e in Block7 :: WellFormed(e) {}

  /** Every row of the table is well formed. */
  lemma TableWellFormed()
    ensures ValidTable(Table)
  {
    Block0WellFormed(); Block1WellFormed(); Block2WellFormed(); Block3WellFormed();
    Block4WellFormed(); Block5WellFormed(); Block6WellFormed(); Block7WellFormed();
  }

  /** The genre names in declaration order (`Object.keys(GENRE_WEIGHTS)`). */
  function Names(t: seq<Entry>): (names: seq<string>)
    ensures |names| == |t|
    ensures forall i | 0 <= i < |t| :: names[i] == t[i].name
  {
    if t == [] then [] else [t[0].name] + Names(t[1..])
  }

  /** The row a name selects in `t`, if any: the first row carrying that name. */
  function Find(t: seq<Entry>, genre: string): (r: Option<Range>)
    ensures r.Some? ==> Entry(genre, r.value) in t
    ensures r.None? <==> genre !in Names(t)
  {
    if t == [] then None
    else if t[0].name == genre then Some(t[0].range)
    else
      assert Names(t) == [t[0].name] + Names(t[1..]);
      Find(t[1..], genre)
  }

  /** `GENRE_WEIGHTS[genre]`: the weight range of a known genre, `None` for any other name. */
  function Lookup(genre: string): (r: Option<Range>)
    ensures r.Some? <==> genre in Names(Table)
    ensures r.Some? ==> Entry(genre, r.value) in Table
  {
    Find(Table, genre)
  }

  /** Every range a valid table yields has width 20 and a minimum between 5 and 30. */
  lemma FindBounds(t: seq<Entry>, genre: string)
    requires ValidTable(t)
    ensures Find(t, genre).Some? ==>
      var r := Find(t, genre).value;
      r.max == r.min + 20 && 5 <= r.min <= 30
  {
    if Find(t, genre).Some? {
      assert WellFormed(Entry(genre, Find(t, genre).value));
    }
  }

  /** Every range the table yields has width 20 and a minimum between 5 and 30. */
  lemma LookupBounds(genre: string)
    ensures Lookup(genre).Some? ==>
      var r := Lookup(genre).value;
      r.max == r.min + 20 && 5 <= r.min <= 30
  {
    TableWellFormed();
    FindBounds(Table, genre);
  }

  /**
   * `Math.floor(r * (max - min + 1)) + min`: the weight drawn for a genre
   * from a random number `r` in `[0, 1)`.
   */
  function Sample(range: Range, r: real): (w: int)
    requires 0.0 <= r < 1.0
    requires range.min <= range.max
    ensures range.min <= w <= range.max
  {
    var width := (range.max - range.min + 1) as real;
    assert 0.0 <= r * width < width by {
      assert r * width <= 1.0 * width;
      assert r * width != width;
    }
    (r * width).Floor + range.min
  }

  /** Every weight drawn for a known genre lies in `[5, 50]`. */
  lemma SampleBounds(genre: string, r: real)
    requires Lookup(genre).Some?
    requires 0.0 <= r < 1.0
    ensures var range := Lookup(genre).value;
      range.min <= range.max && 5 <= Sample(range, r) <= 50
  {
    LookupBounds(genre);
  }
}
