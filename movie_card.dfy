/**
 * MovieCard.tsx: the card of one movie. The genre badge shows the genre
 * text before its first comma, the card lists at most the first two
 * theatres, and a "+N more" note counts the theatres left off.
 */
module MovieCard {
  import opened Wrappers

  const TheatresListed: nat := 2

  /** `genre.split(',')[0]`: the longest prefix without a comma. */
  function FirstGenre(genre: string): (first: string)
    ensures |first| <= |genre| && first == genre[..|first|]
    ensures ',' !in first
    ensures |first| < |genre| ==> genre[|first|] == ','
  {
    if genre == [] || genre[0] == ',' then [] else [genre[0]] + FirstGenre(genre[1..])
  }

  /** A genre with no comma is shown whole; otherwise the badge stops right before the first comma. */
  lemma FirstGenreCases(genre: string)
    ensures ',' !in genre ==> FirstGenre(genre) == genre
    ensures ',' in genre ==> |FirstGenre(genre)| < |genre|
  {
    var first := FirstGenre(genre);
    if |first| == |genre| {
      assert first == genre;
    }
  }

  /** "Action, Adventure" is shown as "Action". */
  lemma FirstGenreExample(genre: string)
    requires genre == "Action, Adventure"
    ensures FirstGenre(genre) == "Action"
  {
    assert genre[6] == ',' && forall i :: 0 <= i < 6 ==> genre[i] != ',';
  }

  /** `theaters.slice(0, 2)`. */
  function ListedTheatres(theatres: seq<string>): (listed: seq<string>)
    ensures |listed| == if |theatres| < TheatresListed then |theatres| else TheatresListed
    ensures listed == theatres[..|listed|]
  {
    if |theatres| <= TheatresListed then theatres else theatres[..TheatresListed]
  }

  /** The "+N more" note: present only when more than two theatres exist. */
  function MoreNote(theatres: seq<string>): (more: Option<nat>)
    ensures more.Some? <==> |theatres| > TheatresListed
    ensures more.Some? ==> more.value > 0
  {
    if |theatres| > TheatresListed then Some(|theatres| - TheatresListed) else None
  }

  /** The listed theatres and the count in the note add up to all the theatres. */
  lemma EveryTheatreAccountedFor(theatres: seq<string>)
    ensures |ListedTheatres(theatres)| + (match MoreNote(theatres) case Some(n) => n case None => 0) == |theatres|
  {
  }
}
