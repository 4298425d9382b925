/**
 * Movies.tsx: the movie list with a genre filter and a search box. The
 * filter effect first keeps the movies of the selected genre (unless it is
 * "All"), then, when the search term is non-empty, the movies whose lowered
 * title or genre contains the lowered term. The page state is overwritten
 * by the handlers and the effect recomputes the filtered list.
 */
module Movies {
  import opened Text
  import opened Seqs

  /** The fields of a movie the filters read (image, rating and the rest are display only). */
  datatype Movie = Movie(id: nat, title: string, genre: string)

  const AllGenres: string := "All"
  const Genres: seq<string> := ["All", "Action", "Drama", "Sci-Fi", "Comedy", "Thriller"]

  /** The search test: the lowered title or genre contains the lowered term. */
  predicate MatchesSearch(movie: Movie, searchTerm: string)
  {
    Contains(Lower(movie.title), Lower(searchTerm)) || Contains(Lower(movie.genre), Lower(searchTerm))
  }

  /** The genre test as a value, so both stages and the proofs name the same function. */
  function GenreTest(selectedGenre: string): Movie -> bool
  {
    (m: Movie) => m.genre == selectedGenre
  }

  function SearchTest(searchTerm: string): Movie -> bool
  {
    (m: Movie) => MatchesSearch(m, searchTerm)
  }

  /** The first stage: `movie.genre === selectedGenre` unless the genre is "All". */
  function ByGenre(movies: seq<Movie>, selectedGenre: string): seq<Movie>
  {
    if selectedGenre != AllGenres then Filter(movies, GenreTest(selectedGenre)) else movies
  }

  /** The second stage, applied only when the term is non-empty (a truthy string). */
  function BySearch(movies: seq<Movie>, searchTerm: string): seq<Movie>
  {
    if searchTerm != "" then Filter(movies, SearchTest(searchTerm)) else movies
  }

  /** Whether a movie survives both stages. */
  predicate Shown(movie: Movie, selectedGenre: string, searchTerm: string)
  {
    (selectedGenre == AllGenres || movie.genre == selectedGenre)
    && (searchTerm == "" || MatchesSearch(movie, searchTerm))
  }

  function ShownTest(selectedGenre: string, searchTerm: string): Movie -> bool
  {
    (m: Movie) => Shown(m, selectedGenre, searchTerm)
  }

  /** The filter effect: genre first, then search. */
  function FilterMovies(movies: seq<Movie>, selectedGenre: string, searchTerm: string): (filtered: seq<Movie>)
    ensures |filtered| <= |movies|
    ensures forall m :: m in filtered <==> m in movies && Shown(m, selectedGenre, searchTerm)
  {
    BySearch(ByGenre(movies, selectedGenre), searchTerm)
  }

  /** The two stages are one filter by the conjunction of their tests. */
  lemma FilterMoviesIsOneFilter(movies: seq<Movie>, selectedGenre: string, searchTerm: string)
    ensures FilterMovies(movies, selectedGenre, searchTerm) == Filter(movies, ShownTest(selectedGenre, searchTerm))
  {
    var shown := ShownTest(selectedGenre, searchTerm);
    var byGenre := GenreTest(selectedGenre);
    var bySearch := SearchTest(searchTerm);
    if selectedGenre == AllGenres && searchTerm == "" {
      FilterKeepAll(movies, shown);
    } else if selectedGenre == AllGenres {
      FilterCongruent(movies, bySearch, shown);
    } else if searchTerm == "" {
      FilterCongruent(movies, byGenre, shown);
    } else {
      FilterFilter(movies, byGenre, bySearch, shown);
    }
  }

  /** The result keeps the order of the full list. */
  lemma FilterMoviesKeepsOrder(movies: seq<Movie>, selectedGenre: string, searchTerm: string)
    ensures IsSubsequence(FilterMovies(movies, selectedGenre, searchTerm), movies)
  {
    FilterMoviesIsOneFilter(movies, selectedGenre, searchTerm);
    FilterIsSubsequence(movies, ShownTest(selectedGenre, searchTerm));
  }

  /** Filtering the filtered list again with the same settings changes nothing. */
  lemma FilterMoviesIdempotent(movies: seq<Movie>, selectedGenre: string, searchTerm: string)
    ensures FilterMovies(FilterMovies(movies, selectedGenre, searchTerm), selectedGenre, searchTerm)
            == FilterMovies(movies, selectedGenre, searchTerm)
  {
    var once := FilterMovies(movies, selectedGenre, searchTerm);
    FilterMoviesIsOneFilter(movies, selectedGenre, searchTerm);
    FilterMoviesIsOneFilter(once, selectedGenre, searchTerm);
    FilterIdempotent(movies, ShownTest(selectedGenre, searchTerm));
  }

  /** With "All" and an empty search every movie is shown, in order. */
  lemma NoFiltersShowAll(movies: seq<Movie>)
    ensures FilterMovies(movies, AllGenres, "") == movies
  {
  }

  class MoviesPage {
    var movies: seq<Movie>
    var filteredMovies: seq<Movie>
    var searchTerm: string
    var selectedGenre: string

    /** The effect has run: the shown list is the filter of the current state. */
    predicate Valid()
      reads this
    {
      filteredMovies == FilterMovies(movies, selectedGenre, searchTerm)
    }

    constructor ()
      ensures Valid()
      ensures movies == [] && filteredMovies == [] && searchTerm == "" && selectedGenre == AllGenres
    {
      movies := [];
      filteredMovies := [];
      searchTerm := "";
      selectedGenre := AllGenres;
    }

    /** The load effect stores the list; the filter effect recomputes what is shown. */
    method Load(data: seq<Movie>)
      modifies this
      ensures Valid()
      ensures movies == data && searchTerm == old(searchTerm) && selectedGenre == old(selectedGenre)
    {
      movies := data;
      filteredMovies := FilterMovies(movies, selectedGenre, searchTerm);
    }

    /** Typing in the search box. */
    method SetSearchTerm(term: string)
      modifies this
      ensures Valid()
      ensures searchTerm == term && movies == old(movies) && selectedGenre == old(selectedGenre)
    {
      searchTerm := term;
      filteredMovies := FilterMovies(movies, selectedGenre, searchTerm);
    }

    /** A genre button. */
    method SelectGenre(genre: string)
      modifies this
      ensures Valid()
      ensures selectedGenre == genre && movies == old(movies) && searchTerm == old(searchTerm)
    {
      selectedGenre := genre;
      filteredMovies := FilterMovies(movies, selectedGenre, searchTerm);
    }

    /** "Clear Filters": search "" and genre "All", so every loaded movie is shown again. */
    method ClearFilters()
      modifies this
      ensures Valid()
      ensures searchTerm == "" && selectedGenre == AllGenres && movies == old(movies)
      ensures filteredMovies == movies
    {
      searchTerm := "";
      selectedGenre := AllGenres;
      filteredMovies := FilterMovies(movies, selectedGenre, searchTerm);
      NoFiltersShowAll(movies);
    }
  }
}
