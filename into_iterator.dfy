/**
 * The `IntoIterator` implementation of function_programming/into-iterator:
 * `into_iter` turns a book into a `BookIterator` over its three fields, and
 * `next` pops the front of the iterator's `properties`.
 */
module IntoIterator {
  import opened Wrappers

  datatype Book = Book(title: string, author: string, genre: string)

  class BookIterator {
    var properties: seq<string>

    /** `Book::into_iter`: the properties are title, author and genre, in that order. */
    constructor IntoIter(book: Book)
      ensures properties == [book.title, book.author, book.genre]
    {
      properties := [book.title, book.author, book.genre];
    }

    /**
     * `next`: `None` once the properties are used up; otherwise the first
     * property, which is removed while the rest keep their order.
     */
    method Next() returns (item: Option<string>)
      modifies this
      ensures old(properties) == [] ==> item == None && properties == []
      ensures old(properties) != [] ==>
                item == Some(old(properties)[0]) && properties == old(properties)[1..]
    {
      if properties != [] {
        item := Some(properties[0]);
        properties := properties[1..];
      } else {
        item := None;
      }
    }
  }

  /** A `for` loop over a `BookIterator`: every remaining property in order, then it stops. */
  method ForEachProperty(it: BookIterator) returns (yielded: seq<string>)
    modifies it
    ensures yielded == old(it.properties)
    ensures it.properties == []
  {
    yielded := [];
    var item := it.Next();
    while item.Some?
      invariant item.Some? ==> yielded + [item.value] + it.properties == old(it.properties)
      invariant item.None? ==> yielded == old(it.properties) && it.properties == []
      decreases |it.properties| + if item.Some? then 1 else 0
    {
      yielded := yielded + [item.value];
      item := it.Next();
    }
  }

  /** `for book_info in book.into_iter()`: exactly title, author, genre. */
  method IterateBook(book: Book) returns (yielded: seq<string>)
    ensures yielded == [book.title, book.author, book.genre]
  {
    var bookIterator := new BookIterator.IntoIter(book);
    yielded := ForEachProperty(bookIterator);
  }

  /** The run in `main`. */
  method PrintBook() returns (printed: seq<string>)
    ensures printed == ["Digital Image Processing", "Gonzales", "Science Book"]
  {
    var book := Book("Digital Image Processing", "Gonzales", "Science Book");
    printed := IterateBook(book);
  }
}
