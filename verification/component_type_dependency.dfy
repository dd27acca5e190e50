/**
 * Computing the scheduling dependency of component types
 * (Scripts/AssemblyInjections/Unity.Entities/ComponentTypeDependencyExtension.cs). A dependency is
 * asked of the entity manager's ComponentDependencyManager with a list of type indices read and a
 * list written. For one type the two lists are that type's index, counted once on the side its
 * access mode names; for a collection, two static scratch lists are cleared and refilled by Unity's
 * CalculateReaderWriterDependency.Add. Neither the dependency manager nor that classifier is part of
 * this model: both are parameters.
 */
module ComponentTypeDependencies {
  import opened Jobs

  datatype AccessMode = ReadWrite | ReadOnly | Exclude

  datatype ComponentType = ComponentType(typeIndex: int, accessMode: AccessMode)

  /** What GetDependency hands the dependency manager: the type indices read and the type indices written. */
  datatype DependencyQuery = DependencyQuery(readers: seq<int>, writers: seq<int>)

  /** The read and write scratch lists between two classifier calls. */
  datatype TypeLists = TypeLists(reading: seq<int>, writing: seq<int>)

  const NoTypes := TypeLists([], [])

  /**
   * The single-type query: the type's index serves as both lists, with a writer count of 1 for
   * ReadWrite and 0 otherwise, and a reader count of one minus that. The debug assertion that the
   * mode is ReadOnly or ReadWrite only logs, so an Exclude type is counted as a reader.
   */
  function SingleTypeQuery(componentType: ComponentType): (q: DependencyQuery)
    ensures |q.writers| == 1 <==> componentType.accessMode == ReadWrite
    ensures |q.readers| + |q.writers| == 1
    ensures q.readers + q.writers == [componentType.typeIndex]
  {
    var writerCount := if componentType.accessMode == ReadWrite then 1 else 0;
    var readerCount := 1 - writerCount;
    DependencyQuery([componentType.typeIndex][..readerCount], [componentType.typeIndex][..writerCount])
  }

  /** The scratch lists after `classify` has seen each type of `types` once, in order, starting from `start`. */
  function Classify(classify: (ComponentType, TypeLists) -> TypeLists, types: seq<ComponentType>, start: TypeLists): TypeLists
  {
    if types == [] then start
    else classify(types[|types| - 1], Classify(classify, types[..|types| - 1], start))
  }

  /** Classifying a collection in two parts is classifying the second part from where the first left off. */
  lemma {:induction false} ClassifyAppend(classify: (ComponentType, TypeLists) -> TypeLists, a: seq<ComponentType>, b: seq<ComponentType>, start: TypeLists)
    ensures Classify(classify, a + b, start) == Classify(classify, b, Classify(classify, a, start))
  {
    if b == [] {
      assert a + b == a;
    } else {
      assert (a + b)[..|a + b| - 1] == a + b[..|b| - 1];
      ClassifyAppend(classify, a, b[..|b| - 1], start);
    }
  }

  /**
   * The single-type path agrees with the collection path on that one type whenever the classifier,
   * from empty lists, files a ReadWrite type as a writer and a ReadOnly type as a reader.
   */
  lemma SingleTypeAgreesWithCollection(classify: (ComponentType, TypeLists) -> TypeLists, componentType: ComponentType)
    requires componentType.accessMode == ReadWrite ==> classify(componentType, NoTypes) == TypeLists([], [componentType.typeIndex])
    requires componentType.accessMode == ReadOnly ==> classify(componentType, NoTypes) == TypeLists([componentType.typeIndex], [])
    requires componentType.accessMode != Exclude
    ensures var lists := Classify(classify, [componentType], NoTypes);
      DependencyQuery(lists.reading, lists.writing) == SingleTypeQuery(componentType)
  {
    assert [componentType][..0] == [];
  }

  /** The static read and write scratch lists shared by every collection query. */
  class ScratchPads {
    var readList: seq<int>
    var writeList: seq<int>

    constructor ()
      ensures readList == [] && writeList == []
    {
      readList := [];
      writeList := [];
    }

    /** Init: both lists are disposed of and replaced by fresh empty ones. */
    method Init()
      modifies this
      ensures readList == [] && writeList == []
    {
      writeList := [];
      readList := [];
    }

    /**
     * GetDependency over a collection: both lists are cleared, each type is classified once, in
     * order, and the whole of both lists is handed to the dependency manager. Nothing left in the
     * lists by an earlier query reaches this one.
     */
    method GetDependency(componentTypes: seq<ComponentType>, classify: (ComponentType, TypeLists) -> TypeLists,
                         dependencyManager: DependencyQuery -> JobHandle)
      returns (h: JobHandle)
      modifies this
      ensures TypeLists(readList, writeList) == Classify(classify, componentTypes, NoTypes)
      ensures h == dependencyManager(DependencyQuery(readList, writeList))
    {
      writeList := [];
      readList := [];
      var i := 0;
      while i < |componentTypes|
        invariant 0 <= i <= |componentTypes|
        invariant TypeLists(readList, writeList) == Classify(classify, componentTypes[..i], NoTypes)
      {
        var lists := classify(componentTypes[i], TypeLists(readList, writeList));
        readList, writeList := lists.reading, lists.writing;
        assert componentTypes[..i + 1][..i] == componentTypes[..i];
        i := i + 1;
      }
      assert componentTypes[..i] == componentTypes;
      h := dependencyManager(DependencyQuery(readList, writeList));
    }
  }
}
