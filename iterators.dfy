/**
 * The `Iterator` implementation of function_programming/iterators: a record
 * store whose `next` hands out employee names by popping the front of
 * `employee_db`, so a `for` loop drains it like a queue.
 */
module Iterators {
  import opened Wrappers

  datatype Employee = Employee(name: string, salary: int)

  /** The names of `db`, in order. */
  function Names(db: seq<Employee>): (r: seq<string>)
    ensures |r| == |db|
    ensures forall i :: 0 <= i < |db| ==> r[i] == db[i].name
  {
    if db == [] then [] else [db[0].name] + Names(db[1..])
  }

  /** `Names` does not look at salaries: records with the same names give the same names. */
  lemma {:induction false} NamesIgnoreSalary(db1: seq<Employee>, db2: seq<Employee>)
    requires |db1| == |db2|
    requires forall i :: 0 <= i < |db1| ==> db1[i].name == db2[i].name
    ensures Names(db1) == Names(db2)
  {
    if db1 != [] {
      NamesIgnoreSalary(db1[1..], db2[1..]);
    }
  }

  class EmployeeRecords {
    var employeeDb: seq<Employee>

    constructor (employeeDb: seq<Employee>)
      ensures this.employeeDb == employeeDb
    {
      this.employeeDb := employeeDb;
    }

    /**
     * `next`: `None` on an empty store, which stays empty; otherwise the first
     * record's name, and exactly that record is removed.
     */
    method Next() returns (item: Option<string>)
      modifies this
      ensures old(employeeDb) == [] ==> item == None && employeeDb == []
      ensures old(employeeDb) != [] ==>
                item == Some(old(employeeDb)[0].name) && employeeDb == old(employeeDb)[1..]
    {
      if |employeeDb| != 0 {
        var result := employeeDb[0].name;
        employeeDb := employeeDb[1..];
        item := Some(result);
      } else {
        item := None;
      }
    }
  }

  /**
   * `for employee in emp_recs`: calls `next` until it returns `None`, so it
   * yields every name in store order, exactly `|employeeDb|` of them, and
   * leaves the store empty.
   */
  method ForEachEmployee(recs: EmployeeRecords) returns (yielded: seq<string>)
    modifies recs
    ensures yielded == Names(old(recs.employeeDb))
    ensures recs.employeeDb == []
  {
    yielded := [];
    var item := recs.Next();
    while item.Some?
      invariant item.Some? ==> yielded + [item.value] + Names(recs.employeeDb) == Names(old(recs.employeeDb))
      invariant item.None? ==> yielded == Names(old(recs.employeeDb)) && recs.employeeDb == []
      decreases |recs.employeeDb| + if item.Some? then 1 else 0
    {
      yielded := yielded + [item.value];
      item := recs.Next();
    }
  }

  /** The run in `main`: the loop prints John, Joseph, Jack. */
  method PrintEmployees() returns (printed: seq<string>)
    ensures printed == ["John", "Joseph", "Jack"]
  {
    var empRecs := new EmployeeRecords([
      Employee("John", 40000),
      Employee("Joseph", 30000),
      Employee("Jack", 25000)
    ]);
    printed := ForEachEmployee(empRecs);
  }
}
