/**
 Section 3 of the study notes: a static method, which sees neither the
 instance nor the class, and a class method, which updates state shared by
 the whole class.
 */
module ClassMethods {

  /**
   `MyClass.static_method(x, y)`: the sum of its two arguments. It is a plain
   function with no `reads` clause, so it depends on no object or class state;
   taking either argument back off the result gives the other one.
   */
  function StaticMethod(x: int, y: int): (r: int)
    ensures r - y == x && r - x == y
  {
    x + y
  }

  /**
   `ParentClass`, whose class-level attribute `class_variable` is shared state.
   One object of this Dafny class stands for the Python class object itself.
   */
  class ParentClass {
    var classVariable: int

    /** The class body: `class_variable` starts at 0. */
    constructor ()
      ensures classVariable == 0
    {
      classVariable := 0;
    }

    /** `increment_class_variable`: raises the counter by exactly one and changes nothing else. */
    method IncrementClassVariable()
      modifies this`classVariable
      ensures classVariable == old(classVariable) + 1
    {
      classVariable := classVariable + 1;
    }
  }

  /**
   A freshly defined `ParentClass` (a newly allocated object stands for the
   class) whose `increment_class_variable` is called once: the class
   attribute goes from 0 to 1.
   */
  method IncrementFresh() returns (before: int, after: int)
    ensures before == 0 && after == before + 1
  {
    var cls := new ParentClass();
    before := cls.classVariable;
    cls.IncrementClassVariable();
    after := cls.classVariable;
  }
}
