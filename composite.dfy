/**
 * Organization salary aggregate (composite).
 *
 * Employees are developers or designers with a name, a salary and a role
 * fixed when they are created; only the salary can change afterwards. An
 * organization keeps the employees added to it, in order, and its net
 * salary is the sum of their current salaries.
 */
module SalaryComposite {

  class Employee {
    const name: string
    var salary: real
    const role: string

    constructor Developer(name: string, salary: real)
      ensures this.name == name && this.salary == salary && role == "Developer"
    {
      this.name := name;
      this.salary := salary;
      role := "Developer";
    }

    constructor Designer(name: string, salary: real)
      ensures this.name == name && this.salary == salary && role == "Designer"
    {
      this.name := name;
      this.salary := salary;
      role := "Designer";
    }

    /** Changes the salary and nothing else (name and role are constants). */
    method SetSalary(salary: real)
      modifies this`salary
      ensures this.salary == salary
    {
      this.salary := salary;
    }
  }

  /** The sum of the current salaries of `staff`; an employee listed twice counts twice. */
  function TotalSalary(staff: seq<Employee>): real
    reads staff
  {
    if staff == [] then 0.0 else TotalSalary(staff[..|staff| - 1]) + staff[|staff| - 1].salary
  }

  /** The total of two lists of employees taken together is the sum of their totals. */
  lemma {:induction false} TotalSalaryConcat(xs: seq<Employee>, ys: seq<Employee>)
    ensures TotalSalary(xs + ys) == TotalSalary(xs) + TotalSalary(ys)
    decreases |ys|
  {
    if ys == [] {
      assert xs + ys == xs;
    } else {
      var last := |ys| - 1;
      assert (xs + ys)[..|xs + ys| - 1] == xs + ys[..last];
      assert (xs + ys)[|xs + ys| - 1] == ys[last];
      TotalSalaryConcat(xs, ys[..last]);
    }
  }

  class Organization {
    var employees: seq<Employee>

    constructor ()
      ensures employees == []
    {
      employees := [];
    }

    /** Appends one employee at the end; earlier employees stay in place. */
    method AddEmployee(employee: Employee)
      modifies this
      ensures employees == old(employees) + [employee]
      ensures TotalSalary(employees) == old(TotalSalary(employees)) + employee.salary
    {
      employees := employees + [employee];
      assert employees[..|employees| - 1] == old(employees);
    }

    /** Adds up the current salaries of all employees, one at a time. */
    method GetNetSalaries() returns (net: real)
      ensures net == TotalSalary(employees)
    {
      net := 0.0;
      var i := 0;
      while i < |employees|
        invariant 0 <= i <= |employees|
        invariant net == TotalSalary(employees[..i])
      {
        assert employees[..i + 1][..i] == employees[..i];
        net := net + employees[i].salary;
        i := i + 1;
      }
      assert employees[..i] == employees;
    }
  }

  /** The demonstration: a developer paid 50000 and a designer paid 45000. */
  method JaneAndJohn() returns (net: real)
    ensures net == 95000.0
  {
    var jane := new Employee.Developer("Jane Doe", 50000.0);
    var john := new Employee.Designer("John Doe", 45000.0);
    var org := new Organization();
    org.AddEmployee(jane);
    org.AddEmployee(john);
    net := org.GetNetSalaries();
  }

  /**
   * The organization holds its employees, not copies: a salary changed after
   * the employee was added shows in the next total.
   */
  method RaiseShowsInNextTotal() returns (before: real, after: real)
    ensures before == 95000.0
    ensures after == 100000.0
  {
    var jane := new Employee.Developer("Jane Doe", 50000.0);
    var john := new Employee.Designer("John Doe", 45000.0);
    var org := new Organization();
    org.AddEmployee(jane);
    org.AddEmployee(john);
    before := org.GetNetSalaries();
    jane.SetSalary(55000.0);
    after := org.GetNetSalaries();
  }
}
