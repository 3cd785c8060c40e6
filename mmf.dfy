/**
  The MMF class of Mmf.cpp, with the remap-free readers of Mmf.hpp, as an
  object whose fields the operations update in place. Each method is proved
  to leave the object in the state, and return the result, that the
  matching function of MmfSpec describes; what those functions promise is
  proved there.
*/
module Mmf {
  import opened Wrappers
  import opened MmfSpec

  class MappedFile {
    var file: seq<char>        // the bytes of the backing file
    var fileSize: nat          // file_size_
    var mappedSize: nat        // mapped_size_
    var position: nat          // current_position_
    var offset: nat            // offset_
    var mapping: Mapping       // mapped_ptr_
    var isValid: bool          // is_valid_
    var lastError: Error       // last_error_
    var mode: OpenMode         // mode_

    /** The object's fields as a value. */
    function Model(): State
      reads this
    {
      State(file, fileSize, mappedSize, position, offset, mapping, isValid, lastError, mode)
    }

    predicate Valid()
      reads this
    {
      MmfSpec.Valid(Model())
    }

    /** MMF(filename, mode): open and map the whole file. */
    constructor OpenFull(disk: Option<seq<char>>, mode: OpenMode)
      ensures Model() == MmfSpec.OpenFull(disk, mode)
      ensures Valid()
    {
      file := [];
      fileSize := 0;
      mappedSize := 0;
      position := 0;
      offset := 0;
      mapping := NoMapping;
      isValid := false;
      lastError := Error.None;
      this.mode := mode;
      new;
      var found := Opened(disk, mode);
      if found.None? {
        lastError := FileOpenFailed;
      } else {
        file := found.value;
        fileSize := |file|;
        mappedSize := |file|;
        if fileSize == 0 && mode == WriteOnly {
          // the ftruncate a write mode does on an empty file is refused on the
          // read-only descriptor WriteOnly opens; ReadWrite's succeeds
          lastError := FileOpenFailed;
        } else if fileSize == 0 {
          mapping := NullMapping;
          isValid := true;
        } else if mode == WriteOnly {
          // a shared writable mapping of a read-only descriptor is refused
          lastError := MapFailed;
        } else {
          mapping := Mapped(0, mode == ReadWrite);
          isValid := true;
        }
      }
    }

    /** MMF(filename, offset, size, mode): open and map a window of the file. */
    constructor OpenWindow(disk: Option<seq<char>>, offset: nat, size: nat, mode: OpenMode)
      ensures Model() == MmfSpec.OpenWindow(disk, offset, size, mode)
      ensures Valid()
    {
      file := [];
      fileSize := 0;
      mappedSize := 0;
      position := 0;
      this.offset := 0;
      mapping := NoMapping;
      isValid := false;
      lastError := Error.None;
      this.mode := mode;
      new;
      var found := Opened(disk, mode);
      if found.None? {
        lastError := FileOpenFailed;
      } else {
        file := found.value;
        fileSize := |file|;
        if offset >= fileSize {
          lastError := InvalidOffset;
        } else {
          var pageAligned := (offset / PageSize) * PageSize;
          var effectiveSize := Min(size, fileSize - offset);
          mappedSize := (offset - pageAligned) + effectiveSize;
          this.offset := pageAligned;
          if mappedSize > 0 {
            mapping := Mapped(pageAligned, false);
            if pageAligned < offset {
              position := offset - pageAligned;
            } else {
              position := 0;
            }
          }
          isValid := true;
        }
      }
    }

    /** The move constructor: take over `other`'s mapping and leave it empty. */
    constructor MoveFrom(other: MappedFile)
      modifies other
      ensures Model() == old(other.Model())
      ensures other.Model() == MovedFrom(old(other.Model()))
    {
      file := other.file;
      fileSize := other.fileSize;
      mappedSize := other.mappedSize;
      position := other.position;
      offset := other.offset;
      mapping := other.mapping;
      isValid := other.isValid;
      lastError := other.lastError;
      mode := other.mode;
      new;
      other.Abandon();
    }

    /** The move assignment: as the move constructor, and nothing on self-assignment. */
    method MoveAssign(other: MappedFile)
      modifies this, other
      ensures other != this ==> (Model(), other.Model()) == Move(old(Model()), old(other.Model()))
      ensures other == this ==> Model() == old(Model())
    {
      if other != this {
        file := other.file;
        fileSize := other.fileSize;
        mappedSize := other.mappedSize;
        position := other.position;
        offset := other.offset;
        mapping := other.mapping;
        isValid := other.isValid;
        lastError := other.lastError;
        mode := other.mode;
        other.Abandon();
      }
    }

    /** What a move does to the object moved from. */
    method Abandon()
      modifies this
      ensures Model() == MovedFrom(old(Model()))
    {
      mapping := NoMapping;
      fileSize := 0;
      mappedSize := 0;
      position := 0;
      isValid := false;
      lastError := Error.None;
    }

    /** GetNextLineBounds: remap if the window is used up, then find the end of the line. */
    method NextLineBounds(extend: bool) returns (bounds: Option<(nat, nat)>)
      modifies this
      requires Valid()
      ensures Step(Model(), bounds) == MmfSpec.NextLineBounds(old(Model()), extend)
    {
      if !isValid || mapping.NullMapping? {
        lastError := NotMapped;
        return Option.None;
      }
      if position >= mappedSize {
        if extend && fileSize > offset + mappedSize {
          Remap();
          if !isValid {
            return Option.None;
          }
        } else {
          lastError := EndOfFile;
          return Option.None;
        }
      }
      var data := Window(Model());
      if data[position] == '\n' {
        // an empty line at the cursor
        return Some((position, position));
      }
      var lineEnd := FindLineEnd(data, position);
      return Some((position, lineEnd));
    }

    /**
      The remap of GetNextLineBounds: map the next window, from the page
      boundary at or below the first byte after the current one.
    */
    method Remap()
      modifies this
      requires Valid() && isValid && fileSize > offset + mappedSize
      ensures Model() == MmfSpec.Remap(old(Model()))
    {
      var next := offset + mappedSize;
      var remaining := fileSize - next;
      var mapSize := Min(mappedSize, remaining);
      var (newOffset, newMapSize) := AlignedOffsetAndSize(next, mapSize);
      if mode == WriteOnly || newMapSize == 0 {
        // mmap refuses a shared writable mapping of a read-only descriptor,
        // and a mapping of length 0
        mapping := NullMapping;
        lastError := MapFailed;
        isValid := false;
      } else {
        mapping := Mapped(newOffset, mode == ReadWrite);
        offset := newOffset;
        mappedSize := newMapSize;
        position := next - newOffset;
      }
    }

    /** ReadLine(p_extend_mapping) of Mmf.cpp: the next line, without its '\n'. */
    method ReadLine(extend: bool) returns (line: Option<seq<char>>)
      modifies this
      requires Valid()
      ensures Step(Model(), line) == MmfSpec.ReadLine(old(Model()), extend)
    {
      var bounds := NextLineBounds(extend);
      if bounds.None? {
        return Option.None;
      }
      var (lineStart, lineEnd) := bounds.value;
      if lineStart > lineEnd {
        // the source answers EndOfFile here, but GetNextLineBounds never
        // returns a line that ends before it starts
        assert false;
      }
      if lineStart == lineEnd {
        position := lineEnd + 1;
        lastError := Error.None;
        return Some([]);
      }
      var data := Window(Model());
      line := Some(data[lineStart..lineEnd]);
      position := if lineEnd < mappedSize && data[lineEnd] == '\n' then lineEnd + 1 else lineEnd;
      lastError := Error.None;
    }

    /**
      ReadLineView(p_extend_mapping) of Mmf.cpp: the same bytes as ReadLine,
      handed out as a view of the mapping instead of a copy.
    */
    method ReadLineView(extend: bool) returns (line: Option<seq<char>>)
      modifies this
      requires Valid()
      ensures Step(Model(), line) == MmfSpec.ReadLine(old(Model()), extend)
    {
      line := ReadLine(extend);
    }

    /** ReadLine() of Mmf.hpp: the next line of the current window, never remapping. */
    method ReadLineFixed() returns (line: Option<seq<char>>)
      modifies this
      requires Valid()
      ensures Step(Model(), line) == MmfSpec.ReadLineFixed(old(Model()))
    {
      if !isValid || mapping.NullMapping? {
        lastError := NotMapped;
        return Option.None;
      }
      if position >= mappedSize {
        lastError := EndOfFile;
        return Option.None;
      }
      var data := Window(Model());
      var lineStart := position;
      var lineEnd := FindLineEnd(data, lineStart);
      line := Some(data[lineStart..lineEnd]);
      position := if lineEnd < |data| && data[lineEnd] == '\n' then lineEnd + 1 else lineEnd;
      lastError := Error.None;
    }

    /** ReadLineView() of Mmf.hpp: ReadLine() as a view of the mapping. */
    method ReadLineViewFixed() returns (line: Option<seq<char>>)
      modifies this
      requires Valid()
      ensures Step(Model(), line) == MmfSpec.ReadLineFixed(old(Model()))
    {
      line := ReadLineFixed();
    }

    /** WriteLine: store the line and '\n' at the cursor, doubling the file when it is full. */
    method WriteLine(line: seq<char>) returns (e: Error)
      modifies this
      requires Valid() && WriteAllowed(Model(), line)
      ensures Step(Model(), e) == MmfSpec.WriteLine(old(Model()), line)
    {
      if !isValid || mapping.NoMapping? {
        return NotMapped;
      }
      if mode == ReadOnly {
        return WriteError;
      }
      var writeSize := |line|;
      if writeSize == 0 {
        return WriteError;
      }
      ghost var s := Model();
      if mapping.NullMapping? {
        Extend(writeSize + 1);
      }
      ghost var t := Model();
      var need := position + writeSize + 1;
      if need > mappedSize {
        var newSize := NewSize(mappedSize, need, writeSize);
        Extend(newSize);
      }
      ghost var u := Model();
      assert u == Prepared(s, writeSize);
      Append(line);
      return Error.None;
    }

    /** Store `line` and '\n' at the cursor and move the cursor past them. */
    method Append(line: seq<char>)
      modifies this
      requires mapping.Mapped? && mapping.base + position + |line| + 1 <= |file|
      ensures Model() == Appended(old(Model()), line)
    {
      file := Store(file, mapping.base + position, line + ['\n']);
      position := position + |line| + 1;
    }

    /** ftruncate to `size` bytes, then mmap the whole file shared and writable. */
    method Extend(size: nat)
      modifies this
      ensures Model() == Extended(old(Model()), size)
    {
      file := Resize(file, size);
      mappedSize := size;
      mapping := Mapped(0, true);
    }

    /** The doubling loop of WriteLine. */
    static method NewSize(mappedSize: nat, need: nat, writeSize: nat) returns (newSize: nat)
      requires writeSize > 0
      ensures newSize == GrownSize(mappedSize, need, writeSize)
    {
      newSize := mappedSize * 2;
      if newSize == 0 {
        newSize := writeSize + 1;
      }
      while need > newSize
        invariant 0 < newSize
        invariant GrowSize(newSize, need) == GrownSize(mappedSize, need, writeSize)
        decreases need - newSize
      {
        newSize := newSize * 2;
      }
    }

    /** Reset: back to the start of the current window. */
    method Reset() returns (e: Error)
      modifies this
      ensures Step(Model(), e) == MmfSpec.Reset(old(Model()))
    {
      if !isValid {
        lastError := NotMapped;
        return lastError;
      }
      position := 0;
      lastError := Error.None;
      return Error.None;
    }

    /** SetPosition: move the cursor inside the current window. */
    method SetPosition(newPosition: nat) returns (e: Error)
      modifies this
      ensures Step(Model(), e) == MmfSpec.SetPosition(old(Model()), newPosition)
    {
      if !isValid {
        lastError := NotMapped;
        return lastError;
      }
      if newPosition > mappedSize {
        lastError := InvalidPosition;
        return lastError;
      }
      position := newPosition;
      lastError := Error.None;
      return Error.None;
    }

    /** The scan of GetNextLineBounds: step over bytes until a '\n' or the window's end. */
    static method FindLineEnd(w: seq<char>, lineStart: nat) returns (lineEnd: nat)
      requires lineStart <= |w|
      ensures lineEnd == LineEnd(w, lineStart)
    {
      lineEnd := lineStart;
      while lineEnd < |w| && w[lineEnd] != '\n'
        invariant lineStart <= lineEnd <= |w|
        invariant LineEnd(w, lineEnd) == LineEnd(w, lineStart)
        decreases |w| - lineEnd
      {
        lineEnd := lineEnd + 1;
      }
    }

    /** IsEOF: true on an invalid object, or when the window is used up. */
    function IsEOF(): (b: bool)
      reads this
      requires Valid()
      ensures b <==> MmfSpec.ReadLineFixed(Model()).out.None?
    {
      IsEOFExactlyWhenFixedReadFails(Model());
      !isValid || position >= mappedSize
    }

    /** GetCurrentPosition: the cursor, on a valid object; it never passes the window's end. */
    function GetCurrentPosition(): (p: Option<nat>)
      reads this
      requires Valid()
      ensures p.Some? <==> isValid
      ensures p.Some? ==> p.value <= mappedSize && p.value == Abs(Model()) - offset
    {
      if isValid then Some(position) else Option.None
    }

    /** GetMappedSize: the window's length, on a valid object; the window never ends past the file. */
    function GetMappedSize(): (r: Option<nat>)
      reads this
      requires Valid()
      ensures r.Some? <==> isValid
      ensures r.Some? && mapping.Mapped? ==> offset + r.value <= |file|
      ensures r.Some? ==> position <= r.value
    {
      if isValid then Some(mappedSize) else Option.None
    }

    /** GetFileSize: file_size_, on a valid object; it never exceeds the bytes of the file. */
    function GetFileSize(): (r: Option<nat>)
      reads this
      requires Valid()
      ensures r.Some? <==> isValid
      ensures r.Some? ==> r.value <= |file|
    {
      if isValid then Some(fileSize) else Option.None
    }

    /**
      GetMappedOffset of Mmf.hpp: 0 on a valid object, whatever offset_ the
      remapping cursor has reached.
    */
    function GetMappedOffset(): (r: Option<nat>)
      reads this
      ensures r.Some? <==> isValid
      ensures r.Some? ==> r.value == 0
    {
      if isValid then Some(0) else Option.None
    }

    /**
      GetData: the live mapping of a valid object, if it has one (an empty
      file has none); through it one sees exactly the window's bytes.
    */
    function GetData(): (d: Option<seq<char>>)
      reads this
      requires Valid()
      ensures d.Some? <==> isValid && !mapping.NullMapping?
      ensures d.Some? ==> |d.value| == mappedSize && (mapping.Mapped? ==> d.value == file[offset .. offset + mappedSize])
    {
      if isValid && !mapping.NullMapping? then Some(Window(Model())) else Option.None
    }
  }
}
