/**
 * About pages: the slug derived from the title when none is set, the reST
 * document rendered with the title as its heading, and the uniqueness of
 * (navbar section, slug, event) among stored pages.
 */
module About {
  import opened Values
  import opened Strings

  /** Python truthiness of a slug: an unset slug (None) and the empty string are false. */
  predicate Truthy(slug: Option<string>)
  {
    slug.Some? && slug.value != ""
  }

  /** The slug `_create_slug` leaves behind: a truthy slug is kept, otherwise `slugify(title)`. */
  function DerivedSlug(slug: Option<string>, title: string, slugify: string -> string): Option<string>
  {
    if Truthy(slug) then slug else Some(slugify(title))
  }

  /**
   * A set, non-empty slug is never overwritten; a slug that changes was falsy
   * and becomes `slugify(title)`; afterwards the slug is set, and it is
   * truthy unless it was falsy and the title slugifies to "".
   */
  lemma DerivedSlugCases(slug: Option<string>, title: string, slugify: string -> string)
    ensures Truthy(slug) ==> DerivedSlug(slug, title, slugify) == slug
    ensures DerivedSlug(slug, title, slugify) != slug ==>
      !Truthy(slug) && DerivedSlug(slug, title, slugify) == Some(slugify(title))
    ensures DerivedSlug(slug, title, slugify).Some?
    ensures Truthy(DerivedSlug(slug, title, slugify)) <==> Truthy(slug) || slugify(title) != ""
  {
  }

  /** Deriving twice for the same title gives what deriving once gives. */
  lemma DerivedSlugIdempotent(slug: Option<string>, title: string, slugify: string -> string)
    ensures DerivedSlug(DerivedSlug(slug, title, slugify), title, slugify) == DerivedSlug(slug, title, slugify)
  {
  }

  /** `'#' * n`. */
  function Divider(n: nat): (d: string)
    ensures |d| == n
    ensures forall k :: 0 <= k < n ==> d[k] == '#'
  {
    seq(n, _ => '#')
  }

  /**
   * The four lines divider, title, divider, content joined by newlines, the
   * divider as long as the title.
   */
  function Document(title: string, content: string): string
  {
    Join([Divider(|title|), title, Divider(|title|), content], "\n")
  }

  /** The document spelled out: three newlines placed between the four lines. */
  lemma DocumentLayout(title: string, content: string)
    ensures Document(title, content) ==
      Divider(|title|) + "\n" + title + "\n" + Divider(|title|) + "\n" + content
  {
    var d := Divider(|title|);
    assert [d, title, d, content][1..] == [title, d, content];
    assert [title, d, content][1..] == [d, content];
    assert [d, content][1..] == [content];
    assert Join([d, content], "\n") == d + "\n" + content;
    assert Join([title, d, content], "\n") == title + "\n" + (d + "\n" + content);
    assert Join([d, title, d, content], "\n") == d + "\n" + (title + "\n" + (d + "\n" + content));
  }

  /**
   * The divider lines are exactly as long as the title and sit before and
   * after it; the content follows the third newline.
   */
  lemma DocumentShape(title: string, content: string)
    ensures var doc := Document(title, content); var n := |title|;
      && |doc| == 3 * n + 3 + |content|
      && doc[..n] == Divider(n) && doc[2 * n + 2..3 * n + 2] == Divider(n)
      && doc[n] == '\n' && doc[2 * n + 1] == '\n' && doc[3 * n + 2] == '\n'
      && doc[n + 1..2 * n + 1] == title
      && doc[3 * n + 3..] == content
  {
    DocumentLayout(title, content);
  }

  /** The document has three newlines more than the title and the content together. */
  lemma DocumentNewlines(title: string, content: string)
    ensures multiset(Document(title, content))['\n'] ==
      multiset(title)['\n'] + multiset(content)['\n'] + 3
  {
    DocumentLayout(title, content);
    var d := Divider(|title|);
    assert '\n' !in d;
    assert multiset(d)['\n'] == 0;
    assert Document(title, content) == d + "\n" + title + "\n" + d + "\n" + content;
  }

  /** Three separator-free lines followed by the rest split into those lines and the rest's pieces. */
  lemma SplitThreeLines(a: string, b: string, c: string, rest: string)
    requires '\n' !in a && '\n' !in b && '\n' !in c
    ensures Split(a + ['\n'] + (b + ['\n'] + (c + ['\n'] + rest)), '\n') ==
      [a, b, c] + Split(rest, '\n')
  {
    var s3 := c + ['\n'] + rest;
    var s2 := b + ['\n'] + s3;
    var s1 := a + ['\n'] + s2;
    SplitFirst(c, '\n', rest);
    SplitFirst(b, '\n', s3);
    SplitFirst(a, '\n', s2);
    var x := Split(rest, '\n');
    assert Split(s1, '\n') == [a] + ([b] + ([c] + x));
    assert [a] + ([b] + ([c] + x)) == [a, b, c] + x;
  }

  /**
   * Reading the document back line by line: for a one-line title the lines
   * are the divider, the title, the divider, then the content's own lines.
   */
  lemma DocumentLines(title: string, content: string)
    requires '\n' !in title
    ensures Split(Document(title, content), '\n') ==
      [Divider(|title|), title, Divider(|title|)] + Split(content, '\n')
  {
    var d := Divider(|title|);
    assert '\n' !in d;
    DocumentLayout(title, content);
    assert Document(title, content) == d + ['\n'] + (title + ['\n'] + (d + ['\n'] + content));
    SplitThreeLines(d, title, d, content);
  }

  /** An about page, with the columns the application reads and writes. */
  class AboutPage {
    var navbarSection: string
    var slug: Option<string>
    var title: string
    var content: string
    var active: bool
    var eventId: int

    constructor (navbarSection: string, slug: Option<string>, title: string, content: string,
                 active: bool, eventId: int)
      ensures this.navbarSection == navbarSection && this.slug == slug && this.title == title
      ensures this.content == content && this.active == active && this.eventId == eventId
    {
      this.navbarSection := navbarSection;
      this.slug := slug;
      this.title := title;
      this.content := content;
      this.active := active;
      this.eventId := eventId;
    }

    /** `__str__`: the page prints as its title. */
    function ToString(): (s: string)
      reads this
      ensures s == title
    {
      title
    }

    /** `rst_document`: the page rendered as a reST document headed by its title. */
    function RstDocument(): (doc: string)
      reads this
      ensures doc == Divider(|title|) + "\n" + title + "\n" + Divider(|title|) + "\n" + content
    {
      DocumentLayout(title, content);
      Document(title, content)
    }

    /**
     * `_create_slug`: only a falsy slug is replaced, by `slugify(title)`;
     * the frame lets no other field change.
     */
    method CreateSlug(slugify: string -> string)
      modifies this`slug
      ensures slug == DerivedSlug(old(slug), title, slugify)
      ensures Truthy(old(slug)) ==> slug == old(slug)
      ensures !Truthy(old(slug)) ==> slug == Some(slugify(title))
    {
      if !Truthy(slug) {
        slug := Some(slugify(title));
      }
    }
  }

  /** A stored about page. */
  datatype Row = Row(navbarSection: string, slug: string, title: string, content: string,
                     active: bool, eventId: int)

  /** The columns of the unique constraint. */
  function Key(r: Row): (string, string, int)
  {
    (r.navbarSection, r.slug, r.eventId)
  }

  /** No two stored pages share navbar section, slug and event. */
  ghost predicate UniqueKeys(rows: seq<Row>)
  {
    forall i, j :: 0 <= i < j < |rows| ==> Key(rows[i]) != Key(rows[j])
  }

  /** What the database answers to an insert. */
  datatype InsertOutcome = Inserted | NotNullViolation | UniqueViolation

  /** Adding a page whose key is new keeps the keys unique. */
  lemma {:induction false} AppendKeepsUnique(rows: seq<Row>, r: Row)
    requires UniqueKeys(rows)
    requires forall i :: 0 <= i < |rows| ==> Key(rows[i]) != Key(r)
    ensures UniqueKeys(rows + [r])
  {
    forall i, j | 0 <= i < j < |rows + [r]|
      ensures Key((rows + [r])[i]) != Key((rows + [r])[j])
    {
      if j < |rows| {
        assert (rows + [r])[i] == rows[i] && (rows + [r])[j] == rows[j];
      } else {
        assert (rows + [r])[i] == rows[i] && (rows + [r])[j] == r;
      }
    }
  }

  /** The stored about pages, with the unique constraint as the table's invariant. */
  class AboutPageTable {
    var rows: seq<Row>

    ghost predicate Valid()
      reads this
    {
      UniqueKeys(rows)
    }

    constructor ()
      ensures Valid() && rows == []
    {
      rows := [];
    }

    /**
     * Storing a page: an unset slug violates NOT NULL, a key already stored
     * violates the unique constraint, and otherwise the page is appended.
     */
    method Insert(page: AboutPage) returns (outcome: InsertOutcome)
      requires Valid()
      modifies this
      ensures Valid()
      ensures page.slug.None? ==> outcome == NotNullViolation && rows == old(rows)
      ensures page.slug.Some? ==>
        var row := Row(page.navbarSection, page.slug.value, page.title, page.content,
                       page.active, page.eventId);
        if exists i :: 0 <= i < |old(rows)| && Key(old(rows)[i]) == Key(row)
        then outcome == UniqueViolation && rows == old(rows)
        else outcome == Inserted && rows == old(rows) + [row]
    {
      if page.slug.None? {
        return NotNullViolation;
      }
      var row := Row(page.navbarSection, page.slug.value, page.title, page.content,
                     page.active, page.eventId);
      if exists i :: 0 <= i < |rows| && Key(rows[i]) == Key(row) {
        return UniqueViolation;
      }
      AppendKeepsUnique(rows, row);
      rows := rows + [row];
      return Inserted;
    }
  }
}
